/**
 The provenance hash chain (src/audit/decision_audit.ts): sealing records one after the other, verifying a chain, and
 what a tail hash says about everything before it.
 */
module ProvenanceChains {
  import opened Prelude

  /** A verification record in canonical form, with sorted keys. */
  type Record = string

  datatype Liveness = Live | Killed | Unknown

  datatype Attester = Attester(agentId: string, version: Option<string>, liveness: Liveness)

  /** What a seal's hash covers: the record, its attester if any, and the hash before it. */
  datatype Body = Body(record: Record, attester: Option<Attester>, prevHash: string)

  datatype Seal = Seal(body: Body, hash: string)

  const HASH_CHARS: nat := 64

  const ZERO_HASH: string := "0000000000000000000000000000000000000000000000000000000000000000"

  datatype Verdict = Valid | Invalid(index: nat, reason: Fault)

  datatype Fault = MalformedHash | Tampered | ChainBreak

  function Sealed(hash: Body -> string, b: Body): Seal { Seal(b, hash(b)) }

  predicate SealOk(hash: Body -> string, s: Seal) { |s.hash| == HASH_CHARS && s.hash == hash(s.body) }

  /** The hash a seal must link to. */
  function Before(chain: seq<Seal>, i: nat): string
    requires i <= |chain|
  {
    if i == 0 then ZERO_HASH else chain[i - 1].hash
  }

  predicate LinkOk(hash: Body -> string, chain: seq<Seal>, i: nat)
    requires i < |chain|
  {
    SealOk(hash, chain[i]) && chain[i].body.prevHash == Before(chain, i)
  }

  /** Every seal is intact and linked to the one before it, the first to the zero hash. */
  predicate Linked(hash: Body -> string, chain: seq<Seal>) {
    forall i :: 0 <= i < |chain| ==> LinkOk(hash, chain, i)
  }

  /** A digest is always sixty-four characters. */
  ghost predicate Digest(hash: Body -> string) { forall b :: |hash(b)| == HASH_CHARS }

  /** Seals each record with the hash of the one before; what comes out always verifies. */
  method ChainProvenance(hash: Body -> string, records: seq<Record>) returns (out: seq<Seal>)
    requires Digest(hash)
    ensures |out| == |records| && forall i :: 0 <= i < |out| ==> out[i].body.record == records[i] && out[i].body.attester == None
    ensures Linked(hash, out)
  {
    hide Linked;
    out := [];
    var prev := ZERO_HASH;
    NothingLinked(hash);
    for i := 0 to |records|
      invariant |out| == i && prev == Before(out, i) && Linked(hash, out)
      invariant forall k :: 0 <= k < i ==> out[k].body.record == records[k] && out[k].body.attester == None
    {
      var s := Sealed(hash, Body(records[i], None, prev));
      assert |hash(s.body)| == HASH_CHARS;
      LinkedMore(hash, out, s);
      out := out + [s];
      prev := s.hash;
    }
  }

  lemma {:induction false} NothingLinked(hash: Body -> string)
    ensures Linked(hash, [])
  {
  }

  lemma {:induction false} LinkedMore(hash: Body -> string, chain: seq<Seal>, s: Seal)
    requires Linked(hash, chain) && SealOk(hash, s) && s.body.prevHash == Before(chain, |chain|)
    ensures Linked(hash, chain + [s])
  {
    hide SealOk;
    var more := chain + [s];
    forall i | 0 <= i < |more| ensures LinkOk(hash, more, i) {
      assert Before(more, i) == Before(chain, i);
      if i < |chain| {
        assert LinkOk(hash, chain, i);
      }
    }
  }

  function SealFault(hash: Body -> string, s: Seal): Option<Fault> {
    if |s.hash| != HASH_CHARS then Some(MalformedHash) else if hash(s.body) != s.hash then Some(Tampered) else None
  }

  /** A chain verifies exactly if it is linked; otherwise the verdict names the first seal that is not, and why. */
  method VerifyProvenanceChain(hash: Body -> string, chain: seq<Seal>) returns (v: Verdict)
    ensures v.Valid? <==> Linked(hash, chain)
    ensures v.Invalid? ==> v.index < |chain| && !LinkOk(hash, chain, v.index) && forall k :: 0 <= k < v.index ==> LinkOk(hash, chain, k)
    ensures v.Invalid? ==>
      && (v.reason == MalformedHash <==> |chain[v.index].hash| != 64)
      && (v.reason == Tampered <==> |chain[v.index].hash| == 64 && chain[v.index].hash != hash(chain[v.index].body))
  {
    var prev := ZERO_HASH;
    for i := 0 to |chain|
      invariant prev == Before(chain, i) && forall k :: 0 <= k < i ==> LinkOk(hash, chain, k)
    {
      var s := chain[i];
      var fault := SealFault(hash, s);
      if fault.Some? {
        assert !LinkOk(hash, chain, i);
        return Invalid(i, fault.value);
      }
      if s.body.prevHash != prev {
        assert !LinkOk(hash, chain, i);
        return Invalid(i, ChainBreak);
      }
      prev := s.hash;
    }
    return Valid;
  }

  // ---- what a tail hash fixes ----

  /** Either nothing was found, or two bodies with one hash, or a body that hashes to the zero hash. */
  datatype Break = NoBreak | Collision(x: Body, y: Body) | Preimage(z: Body)

  ghost predicate Breaks(hash: Body -> string, b: Break) {
    match b
    case NoBreak => false
    case Collision(x, y) => x != y && hash(x) == hash(y)
    case Preimage(z) => hash(z) == ZERO_HASH
  }

  /**
   Two verifying chains that end in the same hash are the same chain, seal by seal: same length, records, attesters and
   order. The only way around it is a collision or a preimage of the zero hash, which the two chains then exhibit.
   */
  lemma {:induction false} TailFixesChain(hash: Body -> string, a: seq<Seal>, b: seq<Seal>) returns (w: Break)
    requires Linked(hash, a) && Linked(hash, b) && Before(a, |a|) == Before(b, |b|)
    ensures a == b || Breaks(hash, w)
    decreases |a|
  {
    w := NoBreak;
    if a == [] && b != [] {
      w := Preimage(b[|b| - 1].body);
      assert LinkOk(hash, b, |b| - 1);
    } else if a != [] && b == [] {
      w := Preimage(a[|a| - 1].body);
      assert LinkOk(hash, a, |a| - 1);
    } else if a != [] {
      var s, t := a[|a| - 1], b[|b| - 1];
      assert LinkOk(hash, a, |a| - 1) && LinkOk(hash, b, |b| - 1);
      if s.body != t.body {
        w := Collision(s.body, t.body);
      } else {
        LinkedPrefix(hash, a, |a| - 1);
        LinkedPrefix(hash, b, |b| - 1);
        w := TailFixesChain(hash, a[..|a| - 1], b[..|b| - 1]);
        assert a == a[..|a| - 1] + [s] && b == b[..|b| - 1] + [t];
      }
    }
  }

  lemma {:induction false} LinkedPrefix(hash: Body -> string, a: seq<Seal>, n: nat)
    requires Linked(hash, a) && n <= |a|
    ensures Linked(hash, a[..n]) && Before(a[..n], n) == Before(a, n)
  {
    forall i | 0 <= i < n ensures LinkOk(hash, a[..n], i) {
      assert LinkOk(hash, a, i);
    }
  }

  /** A witness who kept one hash of a chain can tell every chain that ends in it from any other history. */
  lemma {:induction false} WitnessedPrefix(hash: Body -> string, a: seq<Seal>, i: nat, b: seq<Seal>) returns (w: Break)
    requires Linked(hash, a) && Linked(hash, b) && i < |a| && b != [] && b[|b| - 1].hash == a[i].hash
    ensures b == a[..i + 1] || Breaks(hash, w)
  {
    LinkedPrefix(hash, a, i + 1);
    w := TailFixesChain(hash, a[..i + 1], b);
  }

  /**
   Changing one sealed body of a verifying chain, and whatever later seals it takes to make the chain verify again,
   changes the tail hash.
   */
  lemma {:induction false} EditsShowInTail(hash: Body -> string, a: seq<Seal>, b: seq<Seal>, i: nat) returns (w: Break)
    requires Linked(hash, a) && Linked(hash, b) && |a| == |b| && i < |a| && a[i].body != b[i].body
    ensures a[|a| - 1].hash != b[|b| - 1].hash || Breaks(hash, w)
  {
    w := NoBreak;
    if a[|a| - 1].hash == b[|b| - 1].hash {
      w := TailFixesChain(hash, a, b);
    }
  }
}
