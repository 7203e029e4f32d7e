/** A corrected pass of `validate_predictions` that remembers, per record,
    which horizons it has already validated (`validated_horizons`), next to a
    concrete ledger on which the pass as written validates the same horizon
    twice.

    As written, a record with any horizon still pending stays unmarked, and
    every later pass appends its already-due horizons again (see
    EnhancedRecords.RevalidatedWhilePending). The comment at the marking step
    says a record is marked "if all horizons are validated"; the corrected
    pass validates a horizon only when it is due and not yet validated, and
    marks the record once every horizon has been validated. */
module DedupVariant {
  import opened Basics
  import opened Timestamps
  import opened EnhancedRecords

  /** A ledger entry with the names of its horizons validated so far. */
  datatype Tracked = Tracked(rec: PredictionRecord, validatedHorizons: set<string>)

  /** Validations for the horizons among `hs` that are due and not validated
      yet, in order. */
  function PendingValidations(t: Tracked, hs: seq<(string, HorizonForecast)>, now: DateTime, actual: real): seq<ValidationRecord>
    requires actual != 0.0
  {
    if hs == [] then []
    else
      var last := hs[|hs| - 1];
      PendingValidations(t, hs[..|hs| - 1], now, actual)
        + (if Due(last.1, now) && last.0 !in t.validatedHorizons then [ValidationOf(t.rec, last.0, last.1, now, actual)] else [])
  }

  /** What the corrected pass appends for one entry. */
  function DedupRecordValidations(t: Tracked, now: DateTime, actual: real): seq<ValidationRecord>
    requires actual != 0.0
  {
    if t.rec.validated then [] else PendingValidations(t, t.rec.predictions, now, actual)
  }

  /** Names of the horizons due at `now`. */
  function DueNames(hs: seq<(string, HorizonForecast)>, now: DateTime): set<string>
  {
    set k | 0 <= k < |hs| && Due(hs[k].1, now) :: hs[k].0
  }

  /** Every horizon of the record has been validated. */
  predicate AllValidated(hs: seq<(string, HorizonForecast)>, names: set<string>)
  {
    forall k :: 0 <= k < |hs| ==> hs[k].0 in names
  }

  /** The entry after the corrected pass: the due horizons join the validated
      set, and the record is marked once all of them are in it. */
  function DedupAfterScan(t: Tracked, now: DateTime): (r: Tracked)
    ensures r.rec == t.rec.(validated := r.rec.validated)
    ensures t.validatedHorizons <= r.validatedHorizons
    ensures r.rec.validated <==> t.rec.validated || AllValidated(t.rec.predictions, r.validatedHorizons)
  {
    if t.rec.validated then t
    else
      var names := t.validatedHorizons + DueNames(t.rec.predictions, now);
      Tracked(t.rec.(validated := AllValidated(t.rec.predictions, names)), names)
  }

  /** Each validation the corrected pass appends is for a horizon that is due
      and was not validated before. */
  lemma {:induction false} PendingSound(t: Tracked, hs: seq<(string, HorizonForecast)>, now: DateTime, actual: real)
    requires actual != 0.0
    ensures forall v :: v in PendingValidations(t, hs, now, actual) ==>
      v.horizon !in t.validatedHorizons && v.horizon in DueNames(hs, now) && v.predictionId == t.rec.id
  {
    if hs != [] {
      var n := |hs| - 1;
      PendingSound(t, hs[..n], now, actual);
      forall v | v in PendingValidations(t, hs, now, actual)
        ensures v.horizon in DueNames(hs, now)
      {
        if v in PendingValidations(t, hs[..n], now, actual) {
          var k :| 0 <= k < n && Due(hs[..n][k].1, now) && hs[..n][k].0 == v.horizon;
          assert hs[k] == hs[..n][k];
        } else {
          assert v.horizon == hs[n].0 && Due(hs[n].1, now);
        }
      }
    }
  }

  /** The horizon names of a list of validations. */
  function Horizons(vs: seq<ValidationRecord>): set<string>
  {
    set v | v in vs :: v.horizon
  }

  /** No horizon name occurs twice. */
  predicate DistinctHorizons(vs: seq<ValidationRecord>)
  {
    forall i, j :: 0 <= i < j < |vs| ==> vs[i].horizon != vs[j].horizon
  }

  lemma HorizonsAppend(a: seq<ValidationRecord>, b: seq<ValidationRecord>)
    ensures Horizons(a + b) == Horizons(a) + Horizons(b)
  {
    forall h | h in Horizons(a + b)
      ensures h in Horizons(a) + Horizons(b)
    {
      var v :| v in a + b && v.horizon == h;
    }
    forall h | h in Horizons(a) + Horizons(b)
      ensures h in Horizons(a + b)
    {
      if h in Horizons(a) {
        var v :| v in a && v.horizon == h;
        assert v in a + b;
      } else {
        var v :| v in b && v.horizon == h;
        assert v in a + b;
      }
    }
  }

  /** Two lists without repeats whose names are disjoint join without repeats. */
  lemma DistinctAppend(a: seq<ValidationRecord>, b: seq<ValidationRecord>)
    requires DistinctHorizons(a) && DistinctHorizons(b)
    requires Horizons(a) !! Horizons(b)
    ensures DistinctHorizons(a + b)
  {
    forall i, j | 0 <= i < j < |a + b|
      ensures (a + b)[i].horizon != (a + b)[j].horizon
    {
      if j < |a| {
        assert (a + b)[i] == a[i] && (a + b)[j] == a[j];
      } else if i < |a| {
        assert (a + b)[i] == a[i] && (a + b)[j] == b[j - |a|];
        assert a[i] in a && b[j - |a|] in b;
        assert a[i].horizon in Horizons(a) && b[j - |a|].horizon in Horizons(b);
      } else {
        assert (a + b)[i] == b[i - |a|] && (a + b)[j] == b[j - |a|];
      }
    }
  }

  lemma DueNamesAppend(hs: seq<(string, HorizonForecast)>, now: DateTime)
    requires hs != []
    ensures var n := |hs| - 1;
      DueNames(hs, now) == DueNames(hs[..n], now) + (if Due(hs[n].1, now) then {hs[n].0} else {})
  {
    var n := |hs| - 1;
    forall x | x in DueNames(hs, now)
      ensures x in DueNames(hs[..n], now) + (if Due(hs[n].1, now) then {hs[n].0} else {})
    {
      var k :| 0 <= k < |hs| && Due(hs[k].1, now) && hs[k].0 == x;
      if k < n {
        assert hs[..n][k] == hs[k];
      }
    }
    forall x | x in DueNames(hs[..n], now)
      ensures x in DueNames(hs, now)
    {
      var k :| 0 <= k < n && Due(hs[..n][k].1, now) && hs[..n][k].0 == x;
      assert hs[k] == hs[..n][k];
    }
    if Due(hs[n].1, now) {
      assert hs[n].0 in DueNames(hs, now);
    }
  }

  /** The corrected pass is complete as well as sound: the horizons it
      validates are exactly the due ones not validated before, and in a
      record whose horizon names are distinct each of them once. */
  lemma PendingComplete(t: Tracked, hs: seq<(string, HorizonForecast)>, now: DateTime, actual: real)
    requires actual != 0.0
    ensures Horizons(PendingValidations(t, hs, now, actual)) == DueNames(hs, now) - t.validatedHorizons
    ensures UniqueKeys(hs) ==> DistinctHorizons(PendingValidations(t, hs, now, actual))
  {
    PendingHorizons(t, hs, now, actual);
    if UniqueKeys(hs) {
      PendingDistinct(t, hs, now, actual);
    }
  }

  /** What the last horizon adds to the corrected pass. */
  function PendingTail(t: Tracked, h: (string, HorizonForecast), now: DateTime, actual: real): (r: seq<ValidationRecord>)
    requires actual != 0.0
    ensures Horizons(r) == if Due(h.1, now) && h.0 !in t.validatedHorizons then {h.0} else {}
    ensures DistinctHorizons(r)
  {
    var r := if Due(h.1, now) && h.0 !in t.validatedHorizons then [ValidationOf(t.rec, h.0, h.1, now, actual)] else [];
    assert r != [] ==> r[0] in r;
    r
  }

  lemma {:induction false} PendingSnoc(t: Tracked, hs: seq<(string, HorizonForecast)>, now: DateTime, actual: real)
    requires actual != 0.0 && hs != []
    ensures PendingValidations(t, hs, now, actual)
      == PendingValidations(t, hs[..|hs| - 1], now, actual) + PendingTail(t, hs[|hs| - 1], now, actual)
  {
  }

  lemma {:induction false} PendingHorizons(t: Tracked, hs: seq<(string, HorizonForecast)>, now: DateTime, actual: real)
    requires actual != 0.0
    ensures Horizons(PendingValidations(t, hs, now, actual)) == DueNames(hs, now) - t.validatedHorizons
  {
    if hs == [] {
      assert DueNames(hs, now) == {};
    } else {
      var n := |hs| - 1;
      PendingSnoc(t, hs, now, actual);
      PendingHorizons(t, hs[..n], now, actual);
      HorizonsAppend(PendingValidations(t, hs[..n], now, actual), PendingTail(t, hs[n], now, actual));
      DueNamesAppend(hs, now);
    }
  }

  lemma {:induction false} PendingDistinct(t: Tracked, hs: seq<(string, HorizonForecast)>, now: DateTime, actual: real)
    requires actual != 0.0 && UniqueKeys(hs)
    ensures DistinctHorizons(PendingValidations(t, hs, now, actual))
  {
    if hs != [] {
      var n := |hs| - 1;
      var front := hs[..n];
      PendingSnoc(t, hs, now, actual);
      assert UniqueKeys(front) by {
        assert forall i :: 0 <= i < n ==> front[i] == hs[i];
      }
      PendingDistinct(t, front, now, actual);
      PendingHorizons(t, front, now, actual);
      assert hs[n].0 !in DueNames(front, now);
      DistinctAppend(PendingValidations(t, front, now, actual), PendingTail(t, hs[n], now, actual));
    }
  }

  /** The entry after each of several corrected passes, at the given times
      and actual prices, in order. */
  function AfterPasses(t: Tracked, passes: seq<(DateTime, real)>): Tracked
  {
    if passes == [] then t
    else DedupAfterScan(AfterPasses(t, passes[..|passes| - 1]), passes[|passes| - 1].0)
  }

  /** Everything those passes append for the entry. */
  function PassesValidations(t: Tracked, passes: seq<(DateTime, real)>): seq<ValidationRecord>
    requires forall i :: 0 <= i < |passes| ==> passes[i].1 != 0.0
  {
    if passes == [] then []
    else
      var n := |passes| - 1;
      PassesValidations(t, passes[..n]) + DedupRecordValidations(AfterPasses(t, passes[..n]), passes[n].0, passes[n].1)
  }

  /** The corrected pass never validates a horizon twice: over any sequence
      of passes the validations appended for an entry name each horizon at
      most once, and they name exactly the horizons the passes added to the
      validated set. */
  lemma {:induction false} NoHorizonTwice(t: Tracked, passes: seq<(DateTime, real)>)
    requires forall i :: 0 <= i < |passes| ==> passes[i].1 != 0.0
    requires UniqueKeys(t.rec.predictions)
    ensures AfterPasses(t, passes).rec.predictions == t.rec.predictions
    ensures t.validatedHorizons <= AfterPasses(t, passes).validatedHorizons
    ensures Horizons(PassesValidations(t, passes)) == AfterPasses(t, passes).validatedHorizons - t.validatedHorizons
    ensures DistinctHorizons(PassesValidations(t, passes))
  {
    if passes != [] {
      var n := |passes| - 1;
      var pre := passes[..n];
      var (now, actual) := passes[n];
      NoHorizonTwice(t, pre);
      var t' := AfterPasses(t, pre);
      var p := PassesValidations(t, pre);
      var q := DedupRecordValidations(t', now, actual);
      assert PassesValidations(t, passes) == p + q;
      if t'.rec.validated {
        assert q == [] && AfterPasses(t, passes) == t';
        assert p + q == p;
      } else {
        PendingSound(t', t'.rec.predictions, now, actual);
        PendingComplete(t', t'.rec.predictions, now, actual);
        HorizonsAppend(p, q);
        DistinctAppend(p, q);
      }
    }
  }

  /** Once every horizon has been validated the entry is marked and appends
      nothing more. */
  lemma DoneStaysSilent(t: Tracked, now: DateTime, later: DateTime, actual: real)
    requires actual != 0.0
    requires AllValidated(t.rec.predictions, t.validatedHorizons + DueNames(t.rec.predictions, now))
    ensures DedupAfterScan(t, now).rec.validated
    ensures DedupRecordValidations(DedupAfterScan(t, now), later, actual) == []
  {
  }

  // ---------------------------------------------------------------------
  // A ledger on which the pass as written repeats a horizon

  const T0 := DateTime(0, Some(0))
  const At15 := DateTime(15, Some(0))
  const At30 := DateTime(30, Some(0))
  const At20 := DateTime(20, Some(0))
  const At25 := DateTime(25, Some(0))

  /** A record made at minute 0 with a 15-minute and a 30-minute horizon. */
  const TwoHorizons := PredictionRecord(
    T0, T0, 100.0, UnknownCondition,
    [("15min", HorizonForecast(At15, 101.0, map[], map[])), ("30min", HorizonForecast(At30, 102.0, map[], map[]))],
    map[], false)

  /** Passes at minutes 20 and 25: as written, both append a validation of
      "15min"; the corrected pass appends it at minute 20 only. */
  lemma RepeatedHorizonWitness()
    ensures RecordValidations(TwoHorizons, At20, 100.5) == [ValidationOf(TwoHorizons, "15min", TwoHorizons.predictions[0].1, At20, 100.5)]
    ensures AfterScan(TwoHorizons, At20) == TwoHorizons
    ensures RecordValidations(AfterScan(TwoHorizons, At20), At25, 100.5)
      == [ValidationOf(TwoHorizons, "15min", TwoHorizons.predictions[0].1, At25, 100.5)]
    ensures DedupRecordValidations(Tracked(TwoHorizons, {}), At20, 100.5)
      == [ValidationOf(TwoHorizons, "15min", TwoHorizons.predictions[0].1, At20, 100.5)]
    ensures DedupRecordValidations(DedupAfterScan(Tracked(TwoHorizons, {}), At20), At25, 100.5) == []
  {
    var r, a := TwoHorizons, 100.5;
    var hs := r.predictions;
    assert hs[..1] == [hs[0]] && [hs[0]][..0] == [];
    assert Due(hs[0].1, At20) && Due(hs[0].1, At25);
    assert !Due(hs[1].1, At20) && !Due(hs[1].1, At25);
    assert HorizonValidations(r, hs, At20, a) == HorizonValidations(r, [hs[0]], At20, a);
    assert HorizonValidations(r, hs, At25, a) == HorizonValidations(r, [hs[0]], At25, a);
    assert !AllDue(hs, At20);
    var t := Tracked(r, {});
    assert PendingValidations(t, hs, At20, a) == PendingValidations(t, [hs[0]], At20, a);
    var t' := DedupAfterScan(t, At20);
    assert DueNames(hs, At20) == {"15min"} by {
      assert hs[0].0 in DueNames(hs, At20);
    }
    assert !t'.rec.validated by {
      assert hs[1].0 !in t'.validatedHorizons;
    }
    assert PendingValidations(t', hs, At25, a) == PendingValidations(t', [hs[0]], At25, a);
    assert PendingValidations(t', [hs[0]], At25, a) == PendingValidations(t', [], At25, a);
  }
}
