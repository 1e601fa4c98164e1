/**
 Calibration records: an immutable inner payload whose content hash is the record id, and
 outer metadata with the camera bindings. Names in the store are record ids (32 hex digits),
 legacy full hashes (64 hex digits), camera keys or ".raw" artifacts.
 */
module CalibrationRecords {
  import opened Options

  datatype Inner = ExtrinsicInner(dataset: seq<int>) | IntrinsicInner(calibration: map<string, string>)

  /** `meta` stands for label and sources, which are carried along unread. */
  datatype Association = Association(cameraKey: string, tripleHash: Option<string>, role: Option<string>)
  datatype Outer = Outer(created: string, associations: seq<Association>, meta: string)
  datatype CalibrationRecord = CalibrationRecord(id: string, inner: Inner, outer: Outer)

  // ---- names ----

  predicate IsHex(c: char) {
    '0' <= c <= '9' || 'a' <= c <= 'f'
  }

  predicate IsRecordId(name: string) {
    |name| == 32 && forall i :: 0 <= i < |name| ==> IsHex(name[i])
  }

  predicate IsFullHash(name: string) {
    |name| == 64 && forall i :: 0 <= i < |name| ==> IsHex(name[i])
  }

  predicate IsRaw(name: string) {
    |name| >= 4 && name[|name| - 4..] == ".raw"
  }

  function ReKeyName(name: string): (n: string)
    ensures !IsFullHash(n)
    ensures n != name ==> IsRecordId(n) && IsFullHash(name)
  {
    if IsFullHash(name) then name[..32] else name
  }

  /** A legacy hash is cut to its first 32 digits; every other name stays. */
  lemma ReKeyCuts(name: string)
    ensures ReKeyName(name) <= name && |ReKeyName(name)| == if IsFullHash(name) then 32 else |name|
  {
  }

  lemma RecordIdNotRaw(name: string)
    requires IsRecordId(name)
    ensures !IsRaw(name) && ReKeyName(name) == name
  {
    var tail := name[|name| - 4..];
    assert tail[0] == name[|name| - 4] && IsHex(tail[0]);
  }

  function ReKeyTripleHash(hash: Option<string>): Option<string> {
    if hash.Some? then Some(ReKeyName(hash.value)) else None
  }

  // ---- bindings ----

  function TripleKey(hash: Option<string>): string {
    if hash.Some? then hash.value else ""
  }

  predicate SameBinding(a: Association, b: Association) {
    a.cameraKey == b.cameraKey && TripleKey(a.tripleHash) == TripleKey(b.tripleHash)
  }

  predicate HasAssociation(rec: CalibrationRecord, a: Association) {
    exists i :: 0 <= i < |rec.outer.associations| && SameBinding(rec.outer.associations[i], a)
  }

  function AddAssociation(rec: CalibrationRecord, a: Association): CalibrationRecord {
    if HasAssociation(rec, a) then rec
    else rec.(outer := rec.outer.(associations := rec.outer.associations + [a]))
  }

  function AddAll(rec: CalibrationRecord, added: seq<Association>): CalibrationRecord {
    if added == [] then rec else AddAssociation(AddAll(rec, added[..|added| - 1]), added[|added| - 1])
  }

  function ReKeyAssociation(a: Association): Association {
    a.(tripleHash := ReKeyTripleHash(a.tripleHash))
  }

  function ReKeyRecord(rec: CalibrationRecord): CalibrationRecord {
    var was := rec.outer.associations;
    rec.(outer := rec.outer.(associations :=
      seq(|was|, i requires 0 <= i < |was| => ReKeyAssociation(was[i]))))
  }

  // ---- laws of the bindings ----

  /** Some binding of the record targets this camera and this triple, legacy hashes re-keyed. */
  ghost predicate Binds(rec: CalibrationRecord, cameraKey: string, triple: string) {
    exists i :: 0 <= i < |rec.outer.associations| && Targets(rec.outer.associations[i], cameraKey, triple)
  }

  predicate Targets(a: Association, cameraKey: string, triple: string) {
    a.cameraKey == cameraKey && ReKeyName(TripleKey(a.tripleHash)) == triple
  }

  /** Adding associations adds exactly their bindings and leaves id and payload alone. */
  lemma {:induction false} AddAllBinds(rec: CalibrationRecord, added: seq<Association>, cameraKey: string,
                                       triple: string)
    ensures AddAll(rec, added).id == rec.id && AddAll(rec, added).inner == rec.inner
    ensures Binds(AddAll(rec, added), cameraKey, triple) <==>
            Binds(rec, cameraKey, triple) || exists i :: 0 <= i < |added| && Targets(added[i], cameraKey, triple)
  {
    if added != [] {
      var n := |added| - 1;
      var before, a := AddAll(rec, added[..n]), added[n];
      AddAllBinds(rec, added[..n], cameraKey, triple);
      AddOneBinds(before, a, cameraKey, triple);
      assert forall i :: 0 <= i < n ==> added[..n][i] == added[i];
    }
  }

  lemma AddOneBinds(rec: CalibrationRecord, a: Association, cameraKey: string, triple: string)
    ensures Binds(AddAssociation(rec, a), cameraKey, triple) <==>
            Binds(rec, cameraKey, triple) || Targets(a, cameraKey, triple)
  {
    var out := AddAssociation(rec, a);
    if HasAssociation(rec, a) {
      var i :| 0 <= i < |rec.outer.associations| && SameBinding(rec.outer.associations[i], a);
      assert Targets(rec.outer.associations[i], cameraKey, triple) <==> Targets(a, cameraKey, triple);
    } else {
      var n := |rec.outer.associations|;
      assert out.outer.associations[n] == a;
      forall i | 0 <= i < n ensures out.outer.associations[i] == rec.outer.associations[i] {
      }
    }
  }

  lemma {:induction false} AddAllHas(rec: CalibrationRecord, added: seq<Association>, a: Association)
    requires a in added || HasAssociation(rec, a)
    ensures HasAssociation(AddAll(rec, added), a)
  {
    if added != [] {
      var n := |added| - 1;
      var before := AddAll(rec, added[..n]);
      if a in added[..n] || HasAssociation(rec, a) {
        AddAllHas(rec, added[..n], a);
        AddOneHas(before, added[n], a);
      } else {
        assert a == added[n];
        AddOneHas(before, a, a);
      }
    }
  }

  lemma AddOneHas(rec: CalibrationRecord, a: Association, b: Association)
    requires HasAssociation(rec, b) || a == b
    ensures HasAssociation(AddAssociation(rec, a), b)
  {
    var out := AddAssociation(rec, a).outer.associations;
    if HasAssociation(rec, b) {
      var i :| 0 <= i < |rec.outer.associations| && SameBinding(rec.outer.associations[i], b);
      assert out[i] == rec.outer.associations[i];
    } else {
      assert SameBinding(out[|out| - 1], b);
    }
  }

  /** Associations a record already has change nothing when added again. */
  lemma {:induction false} AddAllNothing(rec: CalibrationRecord, added: seq<Association>)
    requires forall a :: a in added ==> HasAssociation(rec, a)
    ensures AddAll(rec, added) == rec
  {
    if added != [] {
      AddAllNothing(rec, added[..|added| - 1]);
    }
  }

  /** Adding the same associations twice is adding them once. */
  lemma AddAllTwice(rec: CalibrationRecord, added: seq<Association>)
    ensures AddAll(AddAll(rec, added), added) == AddAll(rec, added)
  {
    forall a | a in added ensures HasAssociation(AddAll(rec, added), a) {
      AddAllHas(rec, added, a);
    }
    AddAllNothing(AddAll(rec, added), added);
  }

  lemma AddAllItself(rec: CalibrationRecord)
    ensures AddAll(rec, rec.outer.associations) == rec
  {
    forall a | a in rec.outer.associations ensures HasAssociation(rec, a) {
      var i :| 0 <= i < |rec.outer.associations| && rec.outer.associations[i] == a;
      assert SameBinding(rec.outer.associations[i], a);
    }
    AddAllNothing(rec, rec.outer.associations);
  }

  /** Re-keying changes no binding once legacy hashes are read as their re-keyed form, and
      re-keying again changes nothing. */
  lemma ReKeyBinds(rec: CalibrationRecord, cameraKey: string, triple: string)
    ensures ReKeyRecord(ReKeyRecord(rec)) == ReKeyRecord(rec)
    ensures Binds(ReKeyRecord(rec), cameraKey, triple) <==> Binds(rec, cameraKey, triple)
  {
    var a, b := rec.outer.associations, ReKeyRecord(rec).outer.associations;
    forall i | 0 <= i < |a| ensures Targets(b[i], cameraKey, triple) <==> Targets(a[i], cameraKey, triple) {
    }
    assert ReKeyRecord(ReKeyRecord(rec)).outer.associations == b;
  }
}
