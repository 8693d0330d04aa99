/**
  The tamper-evident audit chain. The digest of a record's canonical form is an uninterpreted function
  of its contents, assumed injective and, like a hexadecimal digest, never empty and never "GENESIS".
 */
module AuditChains {
  import opened Wrappers

  datatype Body = Body(
    organization: string, actor: Option<string>, action: string, resourceType: string, resourceId: string,
    trace: string, metadata: map<string, string>, timestamp: string)

  // Everything that is hashed.
  datatype Content = Content(sequence: int, body: Body, previousHash: string)

  // A stored record; one that was tampered with may have lost its hash.
  datatype Record = Record(content: Content, hash: Option<string>)

  type Digest = Content -> string

  ghost predicate GoodDigest(digest: Digest) {
    && (forall a, b :: digest(a) == digest(b) ==> a == b)
    && (forall a :: digest(a) != "" && digest(a) != "GENESIS")
  }

  // The hash the next record links to.
  function Head(records: seq<Record>): string {
    if records == [] then "GENESIS"
    else if records[|records| - 1].hash.Some? then records[|records| - 1].hash.value else ""
  }

  function NextRecord(digest: Digest, records: seq<Record>, body: Body): Record {
    var content := Content(|records| + 1, body, Head(records));
    Record(content, Some(digest(content)))
  }

  // The record at position i links to the one before and carries its own digest.
  predicate Links(digest: Digest, records: seq<Record>, i: int)
    requires 0 <= i < |records|
  {
    var r := records[i];
    && r.content.sequence == i + 1
    && r.content.previousHash == Head(records[..i])
    && r.hash == Some(digest(r.content)) && r.hash != Some("")
  }

  predicate Sound(digest: Digest, records: seq<Record>) {
    forall i | 0 <= i < |records| :: Links(digest, records, i)
  }

  class AuditChain {
    const digest: Digest
    var records: seq<Record>

    constructor (digest: Digest)
      ensures this.digest == digest && records == []
    {
      this.digest := digest;
      records := [];
    }

    method Append(body: Body) returns (r: Result<Record, ()>)
      requires forall i | 0 <= i < |records| :: records[i].hash.Some?
      modifies this
      ensures r.Err? <==>
                body.organization == "" || body.action == "" || body.resourceType == "" || body.resourceId == ""
      ensures r.Err? ==> unchanged(this)
      ensures r.Ok? ==> r.value == NextRecord(digest, old(records), body) && records == old(records) + [r.value]
      ensures Sound(digest, old(records)) && digest(NextRecord(digest, old(records), body).content) != "" ==>
                Sound(digest, records)
    {
      if body.organization == "" || body.action == "" || body.resourceType == "" || body.resourceId == "" {
        return Err(());
      }
      var previous := if records != [] then records[|records| - 1].hash.value else "GENESIS";
      var content := Content(|records| + 1, body, previous);
      var record := Record(content, Some(digest(content)));
      AppendKeepsSound(digest, records, record);
      records := records + [record];
      return Ok(record);
    }

    method Verify() returns (ok: bool)
      ensures ok <==> Sound(digest, records)
    {
      var previous := "GENESIS";
      for i := 0 to |records|
        invariant previous == Head(records[..i])
        invariant forall j | 0 <= j < i :: Links(digest, records, j)
      {
        var record := records[i];
        assert records[..i + 1][..i] == records[..i];
        if record.content.sequence != i + 1 || record.content.previousHash != previous {
          assert !Links(digest, records, i);
          return false;
        }
        var expected := digest(record.content);
        if record.hash.None? || record.hash.value == "" || record.hash.value != expected {
          assert !Links(digest, records, i);
          return false;
        }
        previous := record.hash.value;
        assert Links(digest, records, i);
      }
      return true;
    }
  }

  lemma AppendKeepsSound(digest: Digest, records: seq<Record>, record: Record)
    ensures Sound(digest, records) && Links(digest, records + [record], |records|) ==> Sound(digest, records + [record])
    ensures Links(digest, records + [record], |records|) <==>
              && record.content.sequence == |records| + 1 && record.content.previousHash == Head(records)
              && record.hash == Some(digest(record.content)) && record.hash != Some("")
  {
    var longer := records + [record];
    assert longer[..|records|] == records;
    if Sound(digest, records) {
      forall i | 0 <= i < |records|
        ensures Links(digest, longer, i)
      {
        assert longer[..i] == records[..i];
        assert Links(digest, records, i);
      }
    }
  }

  // The chain built by appending these bodies one after the other.
  function Built(digest: Digest, bodies: seq<Body>): seq<Record> {
    if bodies == [] then []
    else
      var front := Built(digest, bodies[..|bodies| - 1]);
      front + [NextRecord(digest, front, bodies[|bodies| - 1])]
  }

  // Every chain built by appends verifies, and conversely a chain that verifies is one.
  lemma {:induction false} VerifiesIffBuilt(digest: Digest, records: seq<Record>)
    requires GoodDigest(digest)
    ensures Sound(digest, records) <==>
              records == Built(digest, seq(|records|, i requires 0 <= i < |records| => records[i].content.body))
  {
    var bodies := seq(|records|, i requires 0 <= i < |records| => records[i].content.body);
    if records != [] {
      var front, last := records[..|records| - 1], records[|records| - 1];
      VerifiesIffBuilt(digest, front);
      assert bodies[..|bodies| - 1] == seq(|front|, i requires 0 <= i < |front| => front[i].content.body);
      assert records == front + [last];
      AppendKeepsSound(digest, front, last);
      SoundPrefix(digest, records, |front|);
    }
  }

  // Cutting records off the end goes unnoticed by verification alone.
  lemma SoundPrefix(digest: Digest, records: seq<Record>, n: nat)
    requires n <= |records|
    ensures Sound(digest, records) ==> Sound(digest, records[..n])
  {
    if Sound(digest, records) {
      forall i | 0 <= i < n
        ensures Links(digest, records[..n], i)
      {
        assert records[..n][..i] == records[..i];
        assert Links(digest, records, i);
      }
    }
  }

  // The records at the given positions of a chain, in the given order.
  function Selected(records: seq<Record>, positions: seq<nat>): seq<Record>
    requires forall k | 0 <= k < |positions| :: positions[k] < |records|
  {
    seq(|positions|, k requires 0 <= k < |positions| => records[positions[k]])
  }

  // Cutting the end off is the only rearrangement that goes unnoticed: whatever records of a chain that
  // verifies are kept, in whatever order and however often, they verify exactly when they begin it.
  lemma SelectionVerifiesIffPrefix(digest: Digest, records: seq<Record>, positions: seq<nat>)
    requires Sound(digest, records)
    requires forall k | 0 <= k < |positions| :: positions[k] < |records|
    ensures Sound(digest, Selected(records, positions))
       <==> |positions| <= |records| && Selected(records, positions) == records[..|positions|]
  {
    var kept := Selected(records, positions);
    if Sound(digest, kept) {
      forall k | 0 <= k < |kept|
        ensures positions[k] == k
      {
        assert Links(digest, kept, k) && Links(digest, records, positions[k]);
      }
      assert kept != [] ==> positions[|kept| - 1] == |kept| - 1;
    }
    if |positions| <= |records| {
      SoundPrefix(digest, records, |positions|);
    }
  }

  // Two chains that verify and end in the same hash are the same chain: any edit, deletion, insertion or
  // reordering that keeps the last hash is rejected.
  lemma {:induction false} SameHeadSameChain(digest: Digest, a: seq<Record>, b: seq<Record>)
    requires GoodDigest(digest)
    requires Sound(digest, a) && Sound(digest, b) && Head(a) == Head(b)
    ensures a == b
    decreases |a|
  {
    assert a != [] ==> Links(digest, a, |a| - 1);
    assert b != [] ==> Links(digest, b, |b| - 1);
    if a != [] && b != [] {
      var fa, fb := a[..|a| - 1], b[..|b| - 1];
      SoundPrefix(digest, a, |fa|);
      SoundPrefix(digest, b, |fb|);
      SameHeadSameChain(digest, fa, fb);
      assert a == fa + [a[|a| - 1]] && b == fb + [b[|b| - 1]];
    }
  }

  // A hash noted down at some time pins the whole history up to it: a later chain that verifies and still
  // contains it has the noted chain as its beginning.
  lemma NotedHashPinsHistory(digest: Digest, noted: seq<Record>, later: seq<Record>, i: nat)
    requires GoodDigest(digest)
    requires Sound(digest, noted) && Sound(digest, later)
    requires i < |later| && later[i].hash == Some(Head(noted))
    ensures noted == later[..i + 1]
  {
    SoundPrefix(digest, later, i + 1);
    SameHeadSameChain(digest, noted, later[..i + 1]);
  }
}
