/** The per-user data partitions: the name each user's partition gets, the
    voter-record keys (object ids) and the voter records themselves, kept as
    maps from field name to value. */
module Partitions {
  import opened Responses

  const Prefix: string := "user_"
  const Suffix: string := "_collection"

  /** The partition a user's voter records live in. */
  function PartitionName(username: string): string {
    Prefix + username + Suffix
  }

  /** The user a partition name belongs to, if it is one of ours. */
  function OwnerOf(name: string): (r: Option<string>)
    ensures r.Some? ==> PartitionName(r.value) == name
  {
    if |name| >= |Prefix| + |Suffix| && name[..|Prefix|] == Prefix && name[|name| - |Suffix|..] == Suffix then
      var owner := name[|Prefix|..|name| - |Suffix|];
      assert name == name[..|Prefix|] + owner + name[|name| - |Suffix|..];
      Some(owner)
    else
      None
  }

  lemma OwnerOfPartitionName(username: string)
    ensures OwnerOf(PartitionName(username)) == Some(username)
  {
    var name := PartitionName(username);
    assert name[..|Prefix|] == Prefix;
    assert name[|name| - |Suffix|..] == Suffix;
    assert name[|Prefix|..|name| - |Suffix|] == username;
  }

  /** Two users never share a partition. */
  lemma PartitionNameInjective(a: string, b: string)
    ensures PartitionName(a) == PartitionName(b) <==> a == b
  {
    OwnerOfPartitionName(a);
    OwnerOfPartitionName(b);
  }

  // ---- Record keys -------------------------------------------------------

  predicate IsHexDigit(c: char) {
    '0' <= c <= '9' || 'a' <= c <= 'f' || 'A' <= c <= 'F'
  }

  predicate IsLowerHexDigit(c: char) {
    '0' <= c <= '9' || 'a' <= c <= 'f'
  }

  /** The object-id format the voter routes accept: 24 hexadecimal digits. */
  predicate ValidKey(s: string) {
    |s| == 24 && forall i :: 0 <= i < |s| ==> IsHexDigit(s[i])
  }

  /** A record key as the store keeps it: 24 lower-case hexadecimal digits. */
  predicate IsCanonicalKey(s: string) {
    |s| == 24 && forall i :: 0 <= i < |s| ==> IsLowerHexDigit(s[i])
  }

  type RecordKey = string

  function LowerHex(c: char): char {
    if 'A' <= c <= 'F' then (c as int + 32) as char else c
  }

  /** The key an id names: the hexadecimal digits of an object id are read
      without regard to case. */
  function ParseKey(id: string): (r: Option<RecordKey>)
    ensures r.Some? <==> ValidKey(id)
    ensures r.Some? ==> IsCanonicalKey(r.value)
    ensures r.Some? ==> |r.value| == |id| && forall i :: 0 <= i < |id| ==> r.value[i] == LowerHex(id[i])
  {
    if ValidKey(id) then Some(seq(|id|, i requires 0 <= i < |id| => LowerHex(id[i]))) else None
  }

  /** An id as the server hands it out reads back as the same key. */
  lemma ParseCanonicalKey(k: RecordKey)
    requires IsCanonicalKey(k)
    ensures ParseKey(k) == Some(k)
  {
    assert ValidKey(k);
    var parsed := ParseKey(k).value;
    assert |parsed| == |k|;
    forall i | 0 <= i < |k| ensures parsed[i] == k[i] {
      assert IsLowerHexDigit(k[i]);
    }
    assert parsed == k;
  }

  /** Ids that differ only in the case of their letters name the same key. */
  lemma ParseKeyIgnoresCase(a: string, b: string)
    requires ValidKey(a) && ValidKey(b)
    requires forall i :: 0 <= i < 24 ==> LowerHex(a[i]) == LowerHex(b[i])
    ensures ParseKey(a) == ParseKey(b)
  {
    var pa, pb := ParseKey(a).value, ParseKey(b).value;
    assert |pa| == |pb| == 24;
    forall i | 0 <= i < 24 ensures pa[i] == pb[i] { }
    assert pa == pb;
  }

  // ---- Voter records ------------------------------------------------------

  /** A voter record: field name to value. The record key is held apart. */
  type VoterRecord = map<string, string>

  datatype Voter = Voter(id: RecordKey, fields: VoterRecord)

  /** The fields of the voter schema (models/Voter.js). */
  const VoterFields: set<string> := {
    "Name", "Constituency", "Ward_No", "Votting_Boothe_Name", "Epic_No",
    "Middle_Name", "Gender", "age", "English_Name", "Marathi_Name" }

  /** A request body made into a voter: strict mode keeps only the schema's fields. */
  function FromBody(body: map<string, string>): (r: VoterRecord)
    ensures r.Keys == body.Keys * VoterFields
    ensures forall f :: f in r ==> r[f] == body[f]
    ensures "_id" !in r
  {
    map f | f in body && f in VoterFields :: body[f]
  }

  /** A `$set` of the given fields on a stored record. */
  function Merge(rec: VoterRecord, patch: map<string, string>): VoterRecord {
    rec + patch
  }

  /** A `$set` overwrites exactly the supplied fields and keeps every other one. */
  lemma MergeOverwritesOnlyPatch(rec: VoterRecord, patch: map<string, string>)
    ensures Merge(rec, patch).Keys == rec.Keys + patch.Keys
    ensures forall f :: f in patch ==> Merge(rec, patch)[f] == patch[f]
    ensures forall f :: f in rec && f !in patch ==> Merge(rec, patch)[f] == rec[f]
  {
  }

  /** Repeating an update changes nothing further. */
  lemma MergeIdempotent(rec: VoterRecord, patch: map<string, string>)
    ensures Merge(Merge(rec, patch), patch) == Merge(rec, patch)
  {
  }

  // ---- The partition table -----------------------------------------------

  type Partitions = map<string, map<RecordKey, VoterRecord>>

  /** The records of a partition; a partition that was never created reads as empty. */
  function RecordsOf(parts: Partitions, name: string): map<RecordKey, VoterRecord> {
    if name in parts then parts[name] else map[]
  }

  /** Creating a partition: a partition that exists is left as it is. */
  function Provision(parts: Partitions, name: string): Partitions {
    if name in parts then parts else parts[name := map[]]
  }

  /** Provisioning adds the named partition and never clears or drops one. */
  lemma ProvisionKeepsRecords(parts: Partitions, name: string)
    ensures Provision(parts, name).Keys == parts.Keys + {name}
    ensures forall n :: n in parts ==> Provision(parts, name)[n] == parts[n]
    ensures RecordsOf(Provision(parts, name), name) == RecordsOf(parts, name)
  {
  }

  /** Provisioning twice is provisioning once. */
  lemma ProvisionIdempotent(parts: Partitions, name: string)
    ensures Provision(Provision(parts, name), name) == Provision(parts, name)
  {
  }
}
