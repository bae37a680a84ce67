/** Runs of consecutive physical frames. */
module FrameSpans {

  function Span(base: nat, pages: nat): (s: set<nat>)
    ensures forall f :: f in s <==> base <= f < base + pages
  {
    if pages == 0 then {} else Span(base, pages - 1) + {base + pages - 1}
  }

  lemma {:induction false} SpanSize(base: nat, pages: nat)
    ensures |Span(base, pages)| == pages
  {
    if pages > 0 {
      SpanSize(base, pages - 1);
    }
  }

  lemma {:induction false} SubsetSize(a: set<nat>, b: set<nat>)
    requires a <= b
    ensures |a| <= |b|
    decreases |a|
  {
    if a != {} {
      var x :| x in a;
      SubsetSize(a - {x}, b - {x});
    }
  }
}
