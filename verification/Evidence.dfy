/** The append-only evidence trace of evidence.py, and its checker.

    The hash is a parameter: results say what holds for any hash, or for any injective one. A span's
    payload is taken as its canonical text, and the clock reading arrives as an argument. */
module Evidence {

  datatype Body = Body(traceId: string, sequence: int, recordedAt: int, kind: string, payload: string,
                       previousHash: string)

  datatype Span = Span(body: Body, spanHash: string)

  const GENESIS := "GENESIS"

  /** The hash a span at position `i` must point back to. */
  ghost function HashBefore(trace: seq<Span>, i: nat): string
    requires i <= |trace|
  {
    if i == 0 then GENESIS else trace[i - 1].spanHash
  }

  ghost predicate Linked(hash: Body -> string, trace: seq<Span>, i: nat)
    requires i < |trace|
  {
    && trace[i].body.sequence == i + 1
    && trace[i].body.previousHash == HashBefore(trace, i)
    && trace[i].spanHash == hash(trace[i].body)
  }

  /** Every span carries its position, the hash before it, and its own hash. */
  ghost predicate Chain(hash: Body -> string, trace: seq<Span>) {
    forall i :: 0 <= i < |trace| ==> Linked(hash, trace, i)
  }

  /** What the checker accepts. */
  ghost predicate Verifies(hash: Body -> string, trace: seq<Span>) {
    trace != [] && Chain(hash, trace)
  }

  class EvidenceRecorder {
    const traceId: string
    const hash: Body -> string
    var previousHash: string
    var sequence: nat
    var trace: seq<Span>

    ghost predicate Valid()
      reads this
    {
      && sequence == |trace|
      && previousHash == HashBefore(trace, |trace|)
      && Chain(hash, trace)
    }

    constructor (traceId: string, hash: Body -> string)
      ensures Valid() && trace == [] && this.traceId == traceId && this.hash == hash
    {
      this.traceId := traceId;
      this.hash := hash;
      previousHash := GENESIS;
      sequence := 0;
      trace := [];
    }

    method Record(kind: string, payload: string, now: int) returns (ref: (int, string))
      requires Valid()
      modifies this
      ensures Valid()
      ensures |trace| == old(|trace|) + 1 && trace[..old(|trace|)] == old(trace)
      ensures var body := trace[old(|trace|)].body;
        body.traceId == traceId && body.kind == kind && body.payload == payload && body.recordedAt == now
      ensures var n := old(|trace|);
        && trace[n].body.sequence == n + 1 && trace[n].spanHash == hash(trace[n].body)
        && trace[n].body.previousHash == if n == 0 then "GENESIS" else old(trace)[n - 1].spanHash
      ensures ref == (|trace|, trace[|trace| - 1].spanHash)
      ensures Verifies(hash, trace)
    {
      ghost var before := trace;
      sequence := sequence + 1;
      var body := Body(traceId, sequence, now, kind, payload, previousHash);
      var spanHash := hash(body);
      trace := trace + [Span(body, spanHash)];
      previousHash := spanHash;
      ref := (sequence, spanHash);
      forall i | 0 <= i < |trace| ensures Linked(hash, trace, i) {
        if i < |before| {
          assert Linked(hash, before, i);
        }
      }
    }
  }

  lemma VerifiesMeans(hash: Body -> string, trace: seq<Span>)
    ensures Verifies(hash, trace) <==>
      && trace != [] && trace[0].body.previousHash == "GENESIS"
      && (forall i :: 0 < i < |trace| ==> trace[i].body.previousHash == trace[i - 1].spanHash)
      && (forall i :: 0 <= i < |trace| ==> trace[i].body.sequence == i + 1)
      && (forall i :: 0 <= i < |trace| ==> trace[i].spanHash == hash(trace[i].body))
  {
    if Verifies(hash, trace) {
      forall i | 0 <= i < |trace|
        ensures trace[i].body.previousHash == HashBefore(trace, i) && trace[i].body.sequence == i + 1
          && trace[i].spanHash == hash(trace[i].body)
      {
        assert Linked(hash, trace, i);
      }
    }
  }

  /** The checker accepts exactly the nonempty chains. */
  method Verify(hash: Body -> string, trace: seq<Span>) returns (ok: bool)
    ensures ok <==> Verifies(hash, trace)
    ensures ok <==>
      && trace != [] && trace[0].body.previousHash == "GENESIS"
      && (forall i :: 0 < i < |trace| ==> trace[i].body.previousHash == trace[i - 1].spanHash)
      && (forall i :: 0 <= i < |trace| ==> trace[i].body.sequence == i + 1)
      && (forall i :: 0 <= i < |trace| ==> trace[i].spanHash == hash(trace[i].body))
  {
    VerifiesMeans(hash, trace);
    var previousHash := GENESIS;
    var expectedSequence := 1;
    for i := 0 to |trace|
      invariant expectedSequence == i + 1
      invariant previousHash == HashBefore(trace, i)
      invariant forall k :: 0 <= k < i ==> Linked(hash, trace, k)
    {
      var span := trace[i];
      if span.body.sequence != expectedSequence {
        assert !Linked(hash, trace, i);
        return false;
      }
      if span.body.previousHash != previousHash {
        assert !Linked(hash, trace, i);
        return false;
      }
      if hash(span.body) != span.spanHash {
        assert !Linked(hash, trace, i);
        return false;
      }
      previousHash := span.spanHash;
      expectedSequence := expectedSequence + 1;
    }
    return expectedSequence > 1;
  }

  /** Truncating a valid trace leaves a valid trace: the checker alone cannot see it. */
  lemma {:induction false} PrefixVerifies(hash: Body -> string, trace: seq<Span>, n: nat)
    requires Verifies(hash, trace) && 0 < n <= |trace|
    ensures Verifies(hash, trace[..n])
  {
    forall i | 0 <= i < n ensures Linked(hash, trace[..n], i) {
      assert Linked(hash, trace, i);
    }
  }

  ghost predicate Collision(hash: Body -> string, a: Body, b: Body) {
    a != b && hash(a) == hash(b)
  }

  /** Two verifying traces with the same head agree at every position counted back from the head,
      up to the first collision of the hash; they also have the same length. */
  lemma {:induction false} SameHeadWitness(hash: Body -> string, s: seq<Span>, t: seq<Span>) returns (a: Body, b: Body)
    requires Verifies(hash, s) && Verifies(hash, t)
    requires s[|s| - 1].spanHash == t[|t| - 1].spanHash
    ensures s == t || Collision(hash, a, b)
    decreases |s|
  {
    a, b := s[|s| - 1].body, t[|t| - 1].body;
    assert Linked(hash, s, |s| - 1) && Linked(hash, t, |t| - 1);
    if a == b {
      assert |s| == |t|;
      if |s| > 1 {
        var s', t' := s[..|s| - 1], t[..|t| - 1];
        PrefixVerifies(hash, s, |s| - 1);
        PrefixVerifies(hash, t, |t| - 1);
        a, b := SameHeadWitness(hash, s', t');
        assert s == s' + [s[|s| - 1]] && t == t' + [t[|t| - 1]];
      }
    }
  }

  ghost predicate Injective(hash: Body -> string) {
    forall a, b :: hash(a) == hash(b) ==> a == b
  }

  /** Against a stored head hash the chain is tamper-evident: any other trace with that head, however
      edited, reordered, shortened or lengthened, is rejected. */
  lemma {:induction false} TamperingIsDetected(hash: Body -> string, recorded: seq<Span>, presented: seq<Span>)
    requires Injective(hash) && Verifies(hash, recorded)
    requires presented != [] && presented[|presented| - 1].spanHash == recorded[|recorded| - 1].spanHash
    ensures Verifies(hash, presented) <==> presented == recorded
  {
    if Verifies(hash, presented) {
      var a, b := SameHeadWitness(hash, recorded, presented);
    }
  }
}
