/** session.py and backend_provider.py _bounded_payload: the head and the tail of a text that does not
    fit, as long as possible. The encoded size is additive over characters. */
module Preview {
  import opened Wrappers

  /** How an encoder counts: the bytes of one character inside a JSON string, and of everything else
      in the preview record. */
  datatype Encoder = Encoder(cost: char -> nat, metadata: nat) {
    ghost predicate Valid() {
      forall c :: cost(c) >= 1
    }

    function Bytes(text: string): nat {
      if text == "" then 0 else cost(text[0]) + Bytes(text[1..])
    }

    function Size(p: Cut): nat {
      metadata + Bytes(p.head) + Bytes(p.tail)
    }
  }

  datatype Cut = Cut(head: string, tail: string)

  /** The first half, rounded up, and the last half, rounded down, of k characters. */
  function CutAt(text: string, k: nat): (p: Cut)
    requires k <= |text|
    ensures |p.head| + |p.tail| == k && p.head <= text
  {
    Cut(text[..(k + 1) / 2], text[|text| - k / 2..])
  }

  lemma {:induction false} BytesConcat(e: Encoder, a: string, b: string)
    ensures e.Bytes(a + b) == e.Bytes(a) + e.Bytes(b)
  {
    if a == "" {
      assert a + b == b;
    } else {
      assert (a + b)[0] == a[0] && (a + b)[1..] == a[1..] + b;
      BytesConcat(e, a[1..], b);
    }
  }

  /** One more character costs at least one more byte. */
  lemma {:induction false} SizeGrows(e: Encoder, text: string, k: nat)
    requires e.Valid() && k < |text|
    ensures e.Size(CutAt(text, k)) < e.Size(CutAt(text, k + 1))
  {
    var p, q := CutAt(text, k), CutAt(text, k + 1);
    if k % 2 == 0 {
      var c := text[k / 2];
      assert q.tail == p.tail && q.head == p.head + [c];
      BytesConcat(e, p.head, [c]);
      assert e.Bytes([c]) == e.cost(c) + e.Bytes([c][1..]);
    } else {
      var c := text[|text| - k / 2 - 1];
      assert q.head == p.head && q.tail == [c] + p.tail;
      BytesConcat(e, [c], p.tail);
      assert e.Bytes([c]) == e.cost(c) + e.Bytes([c][1..]);
    }
  }

  /** The encoded size is strictly monotone in the number of characters kept. */
  lemma {:induction false} SizeMonotone(e: Encoder, text: string, j: nat, k: nat)
    requires e.Valid() && j < k <= |text|
    ensures e.Size(CutAt(text, j)) < e.Size(CutAt(text, k))
    decreases k
  {
    hide CutAt, e.Size, e.Bytes, e.Valid;
    SizeGrows(e, text, k - 1);
    if j < k - 1 {
      SizeMonotone(e, text, j, k - 1);
    }
  }

  /** The most characters, up to k, whose preview fits. */
  function Largest(e: Encoder, text: string, limit: nat, k: nat): (n: Option<nat>)
    requires k <= |text|
    ensures n.Some? ==> n.value <= k
  {
    if e.Size(CutAt(text, k)) <= limit then Some(k)
    else if k == 0 then None
    else Largest(e, text, limit, k - 1)
  }

  lemma {:induction false} LargestIs(e: Encoder, text: string, limit: nat, k: nat, n: nat)
    requires n <= k <= |text|
    requires e.Size(CutAt(text, n)) <= limit
    requires forall m :: n < m <= k ==> e.Size(CutAt(text, m)) > limit
    ensures Largest(e, text, limit, k) == Some(n)
    decreases k
  {
    hide CutAt, e.Size, e.Bytes;
    if n < k {
      LargestIs(e, text, limit, k - 1, n);
    }
  }

  lemma {:induction false} LargestNone(e: Encoder, text: string, limit: nat, k: nat)
    requires e.Valid() && k <= |text| && e.Size(CutAt(text, 0)) > limit
    ensures Largest(e, text, limit, k) == None
    decreases k
  {
    if k > 0 {
      SizeMonotone(e, text, 0, k);
      LargestNone(e, text, limit, k - 1);
    }
  }

  /** What becomes of a payload: itself, its longest preview, or nothing that fits. */
  function Bounded(e: Encoder, text: string, fits: bool, limit: nat): Result<Option<Cut>, ()> {
    if fits then Ok(None)
    else
      match Largest(e, text, limit, |text|)
      case Some(k) => Ok(Some(CutAt(text, k)))
      case None => Err(())
  }

  /** The binary search. `fits` says that the payload itself is within the limit. */
  method BoundedPayload(e: Encoder, text: string, fits: bool, limit: nat) returns (r: Result<Option<Cut>, ()>)
    requires e.Valid()
    ensures r == Bounded(e, text, fits, limit)
  {
    hide CutAt, e.Size, e.Bytes, e.Valid;
    if fits {
      return Ok(None);
    }
    var low: int, high: int := 0, |text|;
    var best := CutAt(text, 0);
    ghost var kept: nat := 0;
    while low <= high
      invariant 0 <= low <= |text| + 1 && -1 <= high <= |text|
      invariant kept <= |text| && best == CutAt(text, kept)
      invariant if low == 0 then kept == 0 else kept == low - 1 && e.Size(best) <= limit
      invariant forall m :: high < m <= |text| ==> e.Size(CutAt(text, m)) > limit
      decreases high - low
    {
      var middle := (low + high) / 2;
      var candidate := CutAt(text, middle);
      if e.Size(candidate) <= limit {
        best, kept, low := candidate, middle, middle + 1;
      } else {
        forall m | middle < m <= |text| ensures e.Size(CutAt(text, m)) > limit {
          SizeMonotone(e, text, middle, m);
        }
        high := middle - 1;
      }
    }
    if e.Size(best) > limit {
      LargestNone(e, text, limit, |text|);
      return Err(());
    }
    LargestIs(e, text, limit, |text|, kept);
    return Ok(Some(best));
  }

  /** The preview fits, every longer one does not, and it exists exactly if the bare metadata fits. */
  lemma {:induction false} LongestPreview(e: Encoder, text: string, limit: nat)
    requires e.Valid()
    ensures Bounded(e, text, false, limit).Ok? <==> e.metadata <= limit
    ensures Bounded(e, text, false, limit).Ok? ==>
              exists k :: 0 <= k <= |text| && Bounded(e, text, false, limit) == Ok(Some(CutAt(text, k)))
                && e.Size(CutAt(text, k)) <= limit
                && forall m :: k < m <= |text| ==> e.Size(CutAt(text, m)) > limit
  {
    LargestSound(e, text, limit, |text|);
    assert e.Size(CutAt(text, 0)) == e.metadata;
    if e.metadata > limit {
      LargestNone(e, text, limit, |text|);
    }
  }

  lemma {:induction false} LargestSound(e: Encoder, text: string, limit: nat, k: nat)
    requires k <= |text|
    ensures var n := Largest(e, text, limit, k);
            && (n.Some? ==> n.value <= k && e.Size(CutAt(text, n.value)) <= limit
                            && forall m :: n.value < m <= k ==> e.Size(CutAt(text, m)) > limit)
            && (n.None? ==> e.Size(CutAt(text, 0)) > limit)
    decreases k
  {
    hide CutAt, e.Size, e.Bytes;
    if e.Size(CutAt(text, k)) > limit && k > 0 {
      LargestSound(e, text, limit, k - 1);
    }
  }

  /** A preview of a text that is too long never keeps all of it: escaping costs at least the bytes of
      the text, and the metadata come on top. */
  lemma {:induction false} NeverWhole(e: Encoder, text: string, limit: nat)
    requires e.Valid() && e.Bytes(text) > limit && e.metadata <= limit
    ensures Largest(e, text, limit, |text|).Some? && Largest(e, text, limit, |text|).value < |text|
  {
    var p := CutAt(text, |text|);
    assert p.head + p.tail == text;
    BytesConcat(e, p.head, p.tail);
    assert e.Size(p) == e.metadata + e.Bytes(text);
    assert e.Size(CutAt(text, 0)) == e.metadata;
    hide CutAt, e.Size, e.Bytes, Largest;
    LargestSound(e, text, limit, |text|);
  }
}
