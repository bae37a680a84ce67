/**
 The page loops behind device and DMA mappings (kernel/pci_bar_access.c and
 kernel/pci_dma_buffer.c): mapping a run of pages is all or nothing, unmapping
 goes from the top down and leaves a prefix when it fails.
 */
module PageRuns {

  /** Pages `base` up to `base + count`, mapped to consecutive frames. */
  function Run(base: nat, first: nat, count: nat): (r: map<nat, nat>)
    ensures forall page :: page in r <==> base <= page < base + count
    ensures forall page :: page in r ==> r[page] == first + (page - base)
  {
    if count == 0 then map[] else Run(base, first, count - 1)[base + count - 1 := first + count - 1]
  }

  /** A run over an old table differs from the run one shorter by its last page. */
  lemma LastPage(was: map<nat, nat>, base: nat, first: nat, count: nat)
    requires count > 0 && base + count - 1 !in was
    ensures Shows(was + Run(base, first, count), base + count - 1, first + count - 1)
    ensures (was + Run(base, first, count - 1))[base + count - 1 := first + count - 1] == was + Run(base, first, count)
    ensures (was + Run(base, first, count)) - {base + count - 1} == was + Run(base, first, count - 1)
  {
    var top := base + count - 1;
    var with, less := was + Run(base, first, count), was + Run(base, first, count - 1);
    assert (with - {top}).Keys == less.Keys;
    forall page | page in less ensures (with - {top})[page] == less[page] {
    }
  }

  predicate Shows(pages: map<nat, nat>, page: nat, frame: nat) {
    page in pages && pages[page] == frame
  }

  /** Run(base, _, count) and `was` share no page. */
  predicate Apart(was: map<nat, nat>, base: nat, count: nat) {
    forall page :: base <= page < base + count ==> page !in was
  }

  class Space {
    var pages: map<nat, nat>

    /** One page-table insertion; `works` is the page-table allocator's answer. */
    method MapPage(page: nat, frame: nat, works: bool) returns (ok: bool)
      modifies this
      ensures ok <==> works && page !in old(pages)
      ensures pages == if ok then old(pages)[page := frame] else old(pages)
    {
      ok := works && page !in pages;
      if ok {
        pages := pages[page := frame];
      }
    }

    /** Query one page, then remove it when it still shows the expected frame. */
    method UnmapPage(page: nat, frame: nat, works: bool) returns (ok: bool)
      modifies this
      ensures ok <==> works && Shows(old(pages), page, frame)
      ensures pages == if ok then old(pages) - {page} else old(pages)
    {
      ok := works && Shows(pages, page, frame);
      if ok {
        pages := pages - {page};
      }
    }

    /** Take `count` mapped pages back: exactly the earlier table is left. */
    method Rollback(ghost was: map<nat, nat>, base: nat, first: nat, count: nat)
      requires pages == was + Run(base, first, count)
      requires Apart(was, base, count)
      modifies this
      ensures pages == was
    {
      hide Run, Shows;
      var left: nat := count;
      while left > 0
        invariant left <= count
        invariant pages == was + Run(base, first, left)
      {
        LastPage(was, base, first, left);
        var undone := UnmapPage(base + left - 1, first + left - 1, true);
        assert undone;
        left := left - 1;
      }
    }

    /** Map `count` pages, where the insertion with index `fault` fails. The space ends
        with the whole run or exactly as it was. */
    method MapRun(base: nat, first: nat, count: nat, fault: nat) returns (ok: bool)
      modifies this
      ensures ok <==> count <= fault && Apart(old(pages), base, count)
      ensures pages == if ok then old(pages) + Run(base, first, count) else old(pages)
    {
      hide Run, Shows;
      var mapped: nat := 0;
      ok := true;
      while mapped < count && ok
        invariant mapped <= count && mapped <= fault
        invariant Apart(old(pages), base, mapped)
        invariant pages == old(pages) + Run(base, first, mapped)
        invariant !ok ==> mapped < count && (mapped == fault || base + mapped in old(pages))
        decreases count - mapped, ok
      {
        ok := MapPage(base + mapped, first + mapped, mapped != fault);
        if ok {
          mapped := mapped + 1;
          LastPage(old(pages), base, first, mapped);
        }
      }
      if !ok {
        Rollback(old(pages), base, first, mapped);
      }
    }

    /** Unmap a mapped run from the top; after `works` removals one fails. What is left
        is the low end of the run, and `left` counts it. */
    method UnmapRun(ghost was: map<nat, nat>, base: nat, first: nat, count: nat, works: nat) returns (left: nat)
      requires pages == was + Run(base, first, count)
      requires Apart(was, base, count)
      modifies this
      ensures left == if works < count then count - works else 0
      ensures pages == was + Run(base, first, left)
    {
      hide Run, Shows;
      left := count;
      var tries: nat := works;
      while left > 0
        invariant left <= count && tries <= works && count - left == works - tries
        invariant pages == was + Run(base, first, left)
      {
        LastPage(was, base, first, left);
        var ok := UnmapPage(base + left - 1, first + left - 1, tries > 0);
        if !ok {
          return;
        }
        tries := tries - 1;
        left := left - 1;
      }
    }
  }
}
