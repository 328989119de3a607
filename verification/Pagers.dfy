/**
 The two pagers. The generic API page generator and the Bitbucket activity pager run the same loop; they
 differ in what the server puts on page `offset` and in what counts as the last page.
 */
module Pagers {
  import opened Numbers
  import opened Options

  /** `buf.pop()` until the buffer is empty yields the buffer from its end. */
  function Reverse<T>(s: seq<T>): (r: seq<T>)
    ensures |r| == |s|
  {
    if s == [] then [] else [s[|s| - 1]] + Reverse(s[..|s| - 1])
  }

  lemma {:induction false} ReverseKeeps<T>(s: seq<T>)
    ensures multiset(Reverse(s)) == multiset(s)
  {
    if s != [] {
      ReverseKeeps(s[..|s| - 1]);
      assert s == s[..|s| - 1] + [s[|s| - 1]];
    }
  }

  lemma ReverseMember<T(!new)>(s: seq<T>, x: T)
    ensures x in Reverse(s) <==> x in s
  {
    ReverseKeeps(s);
    assert x in Reverse(s) <==> x in multiset(Reverse(s));
    assert x in s <==> x in multiset(s);
  }

  // ---- the loop

  /** One response: its items, and whether the extractor calls it the last. */
  datatype Page<T> = Page(items: seq<T>, last: bool)

  /** What the generator yields from a sequence of responses; past its end the server has nothing. */
  function Yields<T>(pages: seq<Page<T>>): seq<T>
  {
    if pages == [] || pages[0].items == [] then []
    else Reverse(pages[0].items) + if pages[0].last then [] else Yields(pages[1..])
  }

  /** What is still to be yielded: the buffer from its end, then what later responses bring. */
  ghost function Left<T>(pages: seq<Page<T>>, buf: seq<T>, offset: nat, last: bool): seq<T>
    requires offset <= |pages|
  {
    Reverse(buf) + if last then [] else Yields(pages[offset..])
  }

  lemma NothingLeft<T>(pages: seq<Page<T>>, offset: nat, last: bool)
    requires offset <= |pages| && (last || offset == |pages| || pages[offset].items == [])
    ensures Left(pages, [], offset, last) == []
  {
  }

  lemma Fetched<T>(pages: seq<Page<T>>, offset: nat)
    requires offset < |pages| && pages[offset].items != []
    ensures Left(pages, [], offset, false) == Left(pages, pages[offset].items, offset + 1, pages[offset].last)
  {
    assert pages[offset..][1..] == pages[offset + 1..];
  }

  lemma Popped<T>(pages: seq<Page<T>>, buf: seq<T>, offset: nat, last: bool)
    requires offset <= |pages| && buf != []
    ensures Left(pages, buf, offset, last) == [buf[|buf| - 1]] + Left(pages, buf[..|buf| - 1], offset, last)
  {
    Regroup([buf[|buf| - 1]], Reverse(buf[..|buf| - 1]), if last then [] else Yields(pages[offset..]));
  }

  lemma Regroup<T>(a: seq<T>, b: seq<T>, c: seq<T>)
    ensures a + b + c == a + (b + c)
  {
  }

  /** One turn of the loop: the next item, or none when the generator returns. */
  method NextItem<T>(pages: seq<Page<T>>, buf: seq<T>, offset: nat, lastPage: bool)
    returns (item: Option<T>, buf': seq<T>, offset': nat, lastPage': bool)
    requires offset <= |pages|
    ensures offset <= offset' <= |pages|
    ensures item.None? ==> Left(pages, buf, offset, lastPage) == []
    ensures item.Some? ==> Left(pages, buf, offset, lastPage) == [item.value] + Left(pages, buf', offset', lastPage')
    ensures item.Some? ==> offset < offset' || |buf'| < |buf|
  {
    item, buf', offset', lastPage' := None, buf, offset, lastPage;
    if buf == [] && !lastPage {
      if offset == |pages| || pages[offset].items == [] {
        NothingLeft(pages, offset, lastPage);
        return; // an empty response
      }
      Fetched(pages, offset);
      buf', lastPage' := pages[offset].items, pages[offset].last;
      offset' := offset + 1;
    } else if buf == [] && lastPage {
      NothingLeft(pages, offset, lastPage);
      return;
    }
    Popped(pages, buf', offset', lastPage');
    item, buf' := Some(buf'[|buf'| - 1]), buf'[..|buf'| - 1];
  }

  /** async_api_page_generator and __bbdc_paged_items_gen, with everything they yield collected. */
  method Generate<T>(pages: seq<Page<T>>) returns (out: seq<T>)
    ensures out == Yields(pages)
  {
    out := [];
    var offset := 0;
    var buf: seq<T> := [];
    var lastPage := false;
    ghost var left := Yields(pages);
    assert pages[0..] == pages;
    while true
      invariant 0 <= offset <= |pages|
      invariant left == Left(pages, buf, offset, lastPage)
      invariant Yields(pages) == out + left
      decreases |pages| - offset, |buf|
    {
      var item;
      item, buf, offset, lastPage := NextItem(pages, buf, offset, lastPage);
      if item.None? {
        return;
      }
      ghost var rest := Left(pages, buf, offset, lastPage);
      Regroup(out, [item.value], rest);
      out, left := out + [item.value], rest;
    }
  }

  // ---- numbered pages of a fixed size

  /** The listing cut into pages; `last` is the extractor's test on the length of a page. */
  function Cut<T>(items: seq<T>, size: nat, last: nat -> bool): seq<Page<T>>
    requires size >= 1
    decreases |items|
  {
    if items == [] then []
    else
      var n := Min(size, |items|);
      [Page(items[..n], last(n))] + Cut(items[n..], size, last)
  }

  /** The branch extractor: a page shorter than the page size is the last one. */
  function ShortIsLast(size: nat): nat -> bool
  {
    (length: nat) => length < size
  }

  /** The comment extractor: a full page is the last one. */
  function FullIsLast(size: nat): nat -> bool
  {
    (length: nat) => length >= size
  }

  /** Under the branch extractor every item of every page is yielded exactly once. */
  lemma {:induction false} BranchesComplete<T>(items: seq<T>, size: nat)
    requires size >= 1
    ensures multiset(Yields(Cut(items, size, ShortIsLast(size)))) == multiset(items)
    decreases |items|
  {
    if items != [] {
      var n := Min(size, |items|);
      assert items == items[..n] + items[n..];
      ReverseKeeps(items[..n]);
      BranchesComplete(items[n..], size);
      assert Cut(items, size, ShortIsLast(size))[1..] == Cut(items[n..], size, ShortIsLast(size));
    }
  }

  /** Under the comment extractor exactly the first page is yielded. */
  lemma CommentsFirstPage<T>(items: seq<T>, size: nat)
    requires size >= 1
    ensures Yields(Cut(items, size, FullIsLast(size))) == Reverse(items[..Min(size, |items|)])
  {
    if items != [] {
      var n := Min(size, |items|);
      assert Cut(items, size, FullIsLast(size))[1..] == Cut(items[n..], size, FullIsLast(size));
    }
  }

  /** So the comment listing is complete iff it fits one page. */
  lemma CommentsCompleteIff<T>(items: seq<T>, size: nat)
    requires size >= 1
    ensures multiset(Yields(Cut(items, size, FullIsLast(size)))) == multiset(items) <==> |items| <= size
  {
    CommentsFirstPage(items, size);
    var page := items[..Min(size, |items|)];
    ReverseKeeps(page);
    assert |multiset(page)| == |page| && |multiset(items)| == |items|;
    assert |items| <= size ==> page == items;
  }

  // ---- the Bitbucket pager: the start advances by one item, not by one page

  /** The responses to start = 0, 1, 2, ...: overlapping windows, the last one reaching the end of the listing. */
  function Windows<T>(items: seq<T>, limit: nat): seq<Page<T>>
    requires limit >= 1
    decreases |items|
  {
    if items == [] then []
    else [Page(items[..Min(limit, |items|)], limit >= |items|)] + Windows(items[1..], limit)
  }

  lemma WindowsYield<T>(items: seq<T>, limit: nat)
    requires limit >= 1 && items != []
    ensures Yields(Windows(items, limit))
         == Reverse(items[..Min(limit, |items|)]) + if limit >= |items| then [] else Yields(Windows(items[1..], limit))
  {
    assert Windows(items, limit)[1..] == Windows(items[1..], limit);
  }

  /** The overlapping windows visit every item at least once and nothing else. */
  lemma {:induction false} WindowsCover<T(!new)>(items: seq<T>, limit: nat, x: T)
    requires limit >= 1
    ensures x in Yields(Windows(items, limit)) <==> x in items
    decreases |items|
  {
    if items != [] {
      var window := items[..Min(limit, |items|)];
      WindowsYield(items, limit);
      ReverseMember(window, x);
      if limit < |items| {
        WindowsCover(items[1..], limit, x);
        assert items == [items[0]] + items[1..] && window[0] == items[0];
        assert x in window ==> x in items;
      } else {
        assert window == items;
      }
    }
  }
}
