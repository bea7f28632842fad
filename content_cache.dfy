/** The FIFO content queue kept in a Redis list, shared by the meme queue
    (src/utils/memeFetcher.ts) and the joke and dad-joke queues (src/utils/jokeFetcher.ts).
    Each of the three queues is one `Pool` object; the Redis key it lives under is the
    object's identity, so distinct keys are distinct objects. */
module ContentCache {
  import opened JsText

  /** One element of the Redis list: the JSON text of an item, or text that `JSON.parse`
      rejects (written by something other than a fill). */
  datatype Entry<T> = Stored(item: T) | Corrupt(raw: string)

  /** `!raw` after an `lpop`: the list was empty, or the popped element is the empty string. */
  predicate Falsy<T>(e: Option<Entry<T>>)
  {
    e.None? || (e.value.Corrupt? && e.value.raw == "")
  }

  /** `JSON.parse(raw)` inside its `try`: a corrupt element yields `null`. */
  function Parse<T>(e: Entry<T>): (r: Option<T>)
    ensures r.Some? <==> e.Stored?
    ensures e.Stored? ==> r.value == e.item
  {
    match e
    case Stored(item) => Some(item)
    case Corrupt(_) => None
  }

  /** The list elements a batch of items is pushed as, one `rpush` each. */
  function Encode<T>(items: seq<T>): (es: seq<Entry<T>>)
    ensures |es| == |items|
    ensures forall i :: 0 <= i < |items| ==> es[i] == Stored(items[i])
  {
    seq(|items|, i requires 0 <= i < |items| => Stored(items[i]))
  }

  /** The head of a list, if any. */
  function Head<T>(es: seq<T>): (h: Option<T>)
    ensures h.Some? <==> es != []
    ensures es != [] ==> h.value == es[0]
  {
    if es == [] then None else Some(es[0])
  }

  /** A list after an `lpop`. */
  function Rest<T>(es: seq<T>): (r: seq<T>)
    ensures es == [] ==> r == []
    ensures es != [] ==> es == [es[0]] + r
  {
    if es == [] then [] else es[1..]
  }

  /** `list.filter(keep)` over a fetched list whose entries may be `null`: the entries
      that are present and pass `keep`, in their original order. */
  function Keep<T(==,!new)>(xs: seq<Option<T>>, keep: T -> bool): (r: seq<T>)
    ensures |r| <= |xs|
    ensures forall i :: 0 <= i < |r| ==> keep(r[i])
    ensures forall x :: x in r <==> Some(x) in xs && keep(x)
    decreases |xs|
  {
    if xs == [] then []
    else
      var rest := Keep(xs[1..], keep);
      assert xs == [xs[0]] + xs[1..];
      if xs[0].Some? && keep(xs[0].value) then [xs[0].value] + rest else rest
  }

  /** Filtering a concatenation filters each part and keeps their order. */
  lemma {:induction false} KeepAppend<T(!new)>(a: seq<Option<T>>, b: seq<Option<T>>, keep: T -> bool)
    ensures Keep(a + b, keep) == Keep(a, keep) + Keep(b, keep)
  {
    if a == [] {
      assert a + b == b;
    } else {
      assert (a + b)[1..] == a[1..] + b;
      KeepAppend(a[1..], b, keep);
    }
  }

  /** Every well-formed element of `es` satisfies `p`. */
  ghost predicate AllStored<T>(es: seq<Entry<T>>, p: T -> bool)
  {
    forall i :: 0 <= i < |es| && es[i].Stored? ==> p(es[i].item)
  }

  /** Popping keeps every remaining well-formed element good. */
  lemma AllStoredRest<T>(es: seq<Entry<T>>, p: T -> bool)
    requires AllStored(es, p)
    ensures AllStored(Rest(es), p)
  {
    forall i | 0 <= i < |Rest(es)| && Rest(es)[i].Stored? ensures p(Rest(es)[i].item) {
      assert Rest(es)[i] == es[i + 1];
    }
  }

  /** A pop-then-fill keeps every well-formed element good when every pushed item is. */
  lemma AllStoredRefill<T>(es: seq<Entry<T>>, items: seq<T>, p: T -> bool)
    requires AllStored(es, p)
    requires forall i :: 0 <= i < |items| ==> p(items[i])
    ensures AllStored(Rest(es) + Encode(items), p)
    ensures AllStored(Rest(Rest(es) + Encode(items)), p)
  {
    var filled := Rest(es) + Encode(items);
    AllStoredRest(es, p);
    forall i | 0 <= i < |filled| && filled[i].Stored? ensures p(filled[i].item) {
      if i >= |Rest(es)| {
        assert filled[i] == Stored(items[i - |Rest(es)|]);
      }
    }
    AllStoredRest(filled, p);
  }

  class Pool<T> {
    /** The list, head first. */
    var entries: seq<Entry<T>>
    /** A pop that leaves fewer elements than this starts a background refill. */
    const lowWatermark: nat

    constructor (lowWatermark: nat, initial: seq<Entry<T>>)
      ensures this.lowWatermark == lowWatermark && entries == initial
    {
      this.lowWatermark := lowWatermark;
      entries := initial;
    }

    /** The store half of a fill: nothing happens for an empty batch; otherwise every item
        is pushed onto the tail in order and the batch size is returned. */
    method Fill(items: seq<T>) returns (added: nat)
      modifies this
      ensures added == |items|
      ensures entries == old(entries) + Encode(items)
    {
      if |items| == 0 {
        return 0;
      }
      var i := 0;
      while i < |items|
        invariant 0 <= i <= |items|
        invariant entries == old(entries) + Encode(items[..i])
      {
        entries := entries + [Stored(items[i])];
        i := i + 1;
      }
      assert items[..i] == items;
      return |items|;
    }

    /** `lpop`: removes and returns the head, or nothing when the list is empty. */
    method LPop() returns (e: Option<Entry<T>>)
      modifies this
      ensures old(entries) == [] ==> e.None? && entries == []
      ensures old(entries) != [] ==> e == Some(old(entries)[0]) && entries == old(entries)[1..]
    {
      if entries == [] {
        return None;
      }
      e := Some(entries[0]);
      entries := entries[1..];
    }

    /** The pop shared by `popMeme`, `popJoke` and `popDadJoke`. `fetched` is what the one
        synchronous fill would push. A usable head is taken at once; otherwise (empty list,
        or an empty-string head, which is consumed) there is exactly one fill and one more
        `lpop`. After a successful pop a background refill is due iff fewer than
        `lowWatermark` elements remain; a corrupt element is consumed and yields nothing. */
    method Pop(fetched: seq<T>) returns (r: Option<T>, refilled: bool, backgroundRefill: bool)
      modifies this
      ensures refilled <==> Falsy(Head(old(entries)))
      ensures !refilled ==>
                entries == Rest(old(entries)) && r == Parse(old(entries)[0])
                && backgroundRefill == (|entries| < lowWatermark)
      ensures refilled ==>
                var filled := Rest(old(entries)) + Encode(fetched);
                entries == Rest(filled)
                && (Falsy(Head(filled)) ==> r.None? && !backgroundRefill)
                && (!Falsy(Head(filled)) ==>
                      r == Parse(filled[0]) && backgroundRefill == (|entries| < lowWatermark))
    {
      var raw := LPop();
      refilled := Falsy(raw);
      if refilled {
        var _ := Fill(fetched);
        raw := LPop();
      }
      if Falsy(raw) {
        return None, refilled, false;
      }
      backgroundRefill := |entries| < lowWatermark;
      r := Parse(raw.value);
    }
  }
}
