/** Turning one repository event into a delegated request or a local scan, and starting its feedback workflow. */
module Orchestration {
  import opened Options

  /** get_resolver_tag_for_project: a non-empty project tag wins over the default. */
  function ResolverTag(projectTags: map<string, string>, tagKey: string, default: Option<string>): Option<string>
  {
    if tagKey in projectTags && projectTags[tagKey] != "" then Some(projectTags[tagKey]) else default
  }

  /** How publishing the delegated request goes once its tag is known. */
  datatype RequestOutcome =
    | Accepted
    | Refused
    | WorkflowError                  // for example no signing key
    | OtherError(published: bool)    // for example the channel fails to close after the publish

  datatype CloneTry =
    | AuthFails                      // CloneAuthException
    | CloneRaises
    | ScanRaises                     // cloned, but the scan could not be submitted
    | Submitted(scanId: string)

  datatype Env = Env(
    hasCloneUrl: bool, protectedBranches: set<string>, target: string, projectLoads: bool,
    projectTags: map<string, string>, tagKey: string, defaultTag: Option<string>, knownTags: set<string>,
    request: RequestOutcome, first: CloneTry, second: CloneTry,
    feedbackRaises: bool)            // starting the feedback workflow fails after the submission

  datatype Outcome = Skipped | Delegated | Executing(scanId: string) | Completed | Failed | Raised

  datatype Workflow = PushWorkflow | PrWorkflow

  /** What loading the inspector of a delegated scan finds. */
  datatype Inspected = LoadRaises | StillExecuting | ScanFailed | ScanEnded

  /** The event gets as far as choosing between a request and a local scan. */
  predicate Scannable(env: Env)
  {
    env.hasCloneUrl && env.target in env.protectedBranches && env.projectLoads
  }

  /** The event asks for a delegated scan under a tag some agent may serve. */
  predicate Asks(delegated: bool, env: Env)
  {
    var tag := ResolverTag(env.projectTags, env.tagKey, env.defaultTag);
    !delegated && tag.Some? && tag.value in env.knownTags
  }

  class Orchestrator {
    var delegated: bool
    var requests: seq<string>     // the tags of the delegated requests the broker accepted
    var clones: seq<bool>         // clone attempts, each with its force-new-credentials flag
    var submissions: seq<string>  // scans submitted from here
    var feedback: seq<string>     // scans whose feedback workflow was started

    constructor ()
      ensures !delegated && requests == [] && clones == [] && submissions == [] && feedback == []
    {
      delegated, requests, clones, submissions, feedback := false, [], [], [], [];
    }

    /**
     exec_clone_scan: one retry, with fresh credentials, after an authentication failure. After two such
     failures the loop ends without a result, which the caller cannot unpack.
     */
    method ExecCloneScan(first: CloneTry, second: CloneTry) returns (r: Outcome)
      modifies this
      ensures delegated == old(delegated) && requests == old(requests) && feedback == old(feedback)
      ensures clones == old(clones) + if first == AuthFails then [false, true] else [false]
      ensures var last := if first == AuthFails then second else first;
        && r == (if last.Submitted? then Executing(last.scanId) else Raised)
        && submissions == old(submissions) + (if last.Submitted? then [last.scanId] else [])
    {
      var authFails := 0;
      while authFails <= 1
        invariant 0 <= authFails <= 2
        invariant authFails >= 1 ==> first == AuthFails
        invariant authFails == 2 ==> second == AuthFails
        invariant clones == old(clones) + [false, true][..authFails]
        invariant submissions == old(submissions) && delegated == old(delegated) && requests == old(requests)
        invariant feedback == old(feedback)
        decreases 2 - authFails
      {
        clones := clones + [authFails > 0];
        match if authFails == 0 then first else second {
          case AuthFails =>
            authFails := authFails + 1;
          case Submitted(id) =>
            submissions := submissions + [id];
            return Executing(id);
          case _ =>
            return Raised;
        }
      }
      return Raised;
    }

    /** request_resolver_scan: true when the broker accepted the request. */
    method RequestScan(tag: string, env: Env) returns (accepted: bool, workflowError: bool, otherError: bool)
      modifies this`requests
      ensures workflowError <==> tag !in env.knownTags || env.request == WorkflowError
      ensures otherError <==> tag in env.knownTags && env.request.OtherError?
      ensures accepted <==> tag in env.knownTags && env.request == Accepted
      ensures requests == old(requests) +
        if tag in env.knownTags && (env.request == Accepted || env.request == OtherError(true)) then [tag] else []
    {
      accepted, workflowError, otherError := false, false, false;
      if tag !in env.knownTags {
        workflowError := true;
        return;
      }
      match env.request {
        case Accepted => accepted, requests := true, requests + [tag];
        case Refused =>
        case WorkflowError => workflowError := true;
        case OtherError(published) =>
          otherError := true;
          if published {
            requests := requests + [tag];
          }
      }
    }

    /**
     __orchestrate_scan. An event never leads to both a delegated request and a local scan attempt, and an
     event on a protected branch leads to one of them unless asking for the request failed unforeseen.
     */
    method OrchestrateScan(env: Env) returns (r: Outcome)
      modifies this
      ensures delegated == old(delegated) && feedback == old(feedback)
      // never both, at most one of each
      ensures requests == old(requests) || (|requests| == |old(requests)| + 1 && clones == old(clones))
      ensures |clones| <= |old(clones)| + 2 && |submissions| <= |old(submissions)| + 1
      // one of them, exactly when
      ensures (|requests| == |old(requests)| + 1 || |clones| > |old(clones)|) <==>
        Scannable(env) && !(Asks(delegated, env) && env.request == OtherError(false))
      ensures |requests| == |old(requests)| + 1 <==>
        Scannable(env) && Asks(delegated, env) && (env.request == Accepted || env.request == OtherError(true))
      // under the project's own tag if it has one, else under the default
      ensures |requests| == |old(requests)| + 1 ==>
        if env.tagKey in env.projectTags && env.projectTags[env.tagKey] != ""
        then requests == old(requests) + [env.projectTags[env.tagKey]]
        else env.defaultTag.Some? && requests == old(requests) + [env.defaultTag.value]
      ensures (Scannable(env) && !delegated && env.tagKey in env.projectTags && env.projectTags[env.tagKey] != ""
               && env.projectTags[env.tagKey] in env.knownTags && env.request == Accepted) ==> r == Delegated
      ensures (Scannable(env) && !delegated && env.defaultTag.Some? && env.defaultTag.value in env.knownTags
               && (env.tagKey !in env.projectTags || env.projectTags[env.tagKey] == "") && env.request == Accepted) ==>
        r == Delegated
      ensures r == Delegated <==> Scannable(env) && Asks(delegated, env) && env.request == Accepted
      ensures r == Skipped <==> env.hasCloneUrl && env.target !in env.protectedBranches
      ensures r != Completed && r != Failed
      ensures r.Executing? ==> submissions == old(submissions) + [r.scanId] && |clones| > |old(clones)|
      ensures !r.Executing? ==> submissions == old(submissions)
    {
      if !env.hasCloneUrl {
        return Raised;
      }
      if env.target !in env.protectedBranches {
        return Skipped;
      }
      if !env.projectLoads {
        return Raised;
      }
      if !delegated {
        var tag := ResolverTag(env.projectTags, env.tagKey, env.defaultTag);
        if tag.Some? {
          var accepted, workflowError, otherError := RequestScan(tag.value, env);
          if otherError {
            return Raised;
          }
          if accepted {
            return Delegated;
          }
        }
      }
      r := ExecCloneScan(env.first, env.second);
    }

    /**
     The push and PR workflows: the feedback workflow starts only for a scan submitted here, and for every such
     scan unless starting it raises, which leaves a scan that runs without feedback.
     */
    method ExecuteWorkflow(env: Env) returns (r: Outcome)
      modifies this
      ensures delegated == old(delegated)
      ensures feedback == old(feedback) + if r.Executing? then [r.scanId] else []
      ensures r.Executing? ==> submissions == old(submissions) + [r.scanId] && requests == old(requests)
      ensures !r.Executing? && submissions != old(submissions) ==>
        r == Raised && env.feedbackRaises && |submissions| == |old(submissions)| + 1
      ensures env.feedbackRaises ==> !r.Executing?
    {
      r := OrchestrateScan(env);
      if r.Executing? {
        if env.feedbackRaises {
          return Raised;
        }
        feedback := feedback + [r.scanId];
      }
    }

    /**
     handle_delegated_scan with the delegated push and PR workflows. The scan exists already, so nothing is
     requested, cloned or submitted again. A pull request's feedback starts whenever its scan can be loaded; a
     push's only while the scan is still executing, so one that has ended by then gets none.
     */
    method HandleDelegatedScan(workflow: Workflow, scanId: string, inspected: Inspected) returns (r: Outcome)
      modifies this
      ensures delegated
      ensures requests == old(requests) && clones == old(clones) && submissions == old(submissions)
      ensures feedback == old(feedback) + if r.Executing? then [scanId] else []
      ensures r.Executing? <==>
        inspected == StillExecuting || (workflow == PrWorkflow && inspected != LoadRaises)
      ensures r == Raised <==> inspected == LoadRaises
      ensures r == Failed <==> workflow == PushWorkflow && inspected == ScanFailed
      ensures r == Completed <==> workflow == PushWorkflow && inspected == ScanEnded
      ensures r.Executing? ==> r.scanId == scanId
    {
      delegated := true;
      if inspected == LoadRaises {
        return Raised;
      }
      if workflow == PrWorkflow || inspected == StillExecuting {
        feedback := feedback + [scanId];
        return Executing(scanId);
      }
      return if inspected == ScanFailed then Failed else Completed;
    }

    /**
     An event and, if it was delegated, the delegated scan's return to a new orchestrator: whichever way the
     scan goes, feedback is started at most once, for the scan that was made.
     */
    method EventAndReturn(workflow: Workflow, env: Env, delegatedScan: string, inspected: Inspected, back: Orchestrator)
      returns (r: Outcome)
      requires back != this && !delegated
      modifies this, back
      ensures |feedback| + |back.feedback| <= |old(feedback)| + |old(back.feedback)| + 1
      ensures r == Delegated ==> feedback == old(feedback) && submissions == old(submissions)
      ensures r == Delegated ==> back.requests == old(back.requests) && back.submissions == old(back.submissions)
      ensures r == Delegated && workflow == PrWorkflow && inspected != LoadRaises ==>
        back.feedback == old(back.feedback) + [delegatedScan]
      ensures r != Delegated ==> back.feedback == old(back.feedback)
    {
      r := ExecuteWorkflow(env);
      if r == Delegated {
        var _ := back.HandleDelegatedScan(workflow, delegatedScan, inspected);
      }
    }
  }
}
