/** Stored observations: writing them once, reading them back, and what they qualify for.

    A row is kept under the stable part of its observation's identity. */
module EvidenceStore {
  import opened Wrappers
  import opened DecimalText
  import opened EvidenceFacts
  import opened EvidenceCodec
  import opened EvidenceRoundTrip
  import opened EvidenceTally
  import opened EvidenceAggregate
  import opened EvidenceAggregator

  datatype StableKey = StableKey(
    stage: Stage, session: int, firmquantCommit: string, uquantCommit: string, config: string,
    account: string)

  datatype Row = Row(key: StableKey, payload: Json)

  datatype StoreError = Conflict | InvalidStored | NotAggregable(why: AggregateError)

  datatype Deployment = Deployment(
    stage: Stage, firmquantCommit: string, uquantCommit: string, config: string, account: string)

  datatype Bar = Bar(sessions: nat, orders: nat, fills: nat, error: real)

  function KeyOf(i: Identity): StableKey {
    StableKey(i.stage, i.session, i.firmquantCommit, i.uquantCommit, i.config, i.account)
  }

  predicate Concerns(d: Deployment, i: Identity) {
    Deployment(i.stage, i.firmquantCommit, i.uquantCommit, i.config, i.account) == d
  }

  // ------------------------------------------------------------------------- writing

  function Find(rows: seq<Row>, key: StableKey): (found: Option<Json>)
    ensures found.Some? <==> exists i :: 0 <= i < |rows| && rows[i].key == key
    ensures found.Some? ==> exists i :: 0 <= i < |rows| && rows[i] == Row(key, found.value)
  {
    if rows == [] then None
    else if rows[|rows| - 1].key == key then Some(rows[|rows| - 1].payload)
    else Find(rows[..|rows| - 1], key)
  }

  predicate SameContent(stored: Json, o: Observation) {
    stored.Obj? && Get(stored.fields, ContentDigest) == ContentDigestOf(o)
  }

  function Appended(rows: seq<Row>, o: Observation): (seq<Row>, Result<bool, StoreError>) {
    var existing := Find(rows, KeyOf(o.identity));
    if existing.None? then (rows + [Row(KeyOf(o.identity), Payload(o))], Ok(true))
    else if SameContent(existing.value, o) then (rows, Ok(false))
    else (rows, Err(Conflict))
  }

  function AppendAll(rows: seq<Row>, os: seq<Observation>): seq<Row> {
    if os == [] then rows else Appended(AppendAll(rows, os[..|os| - 1]), os[|os| - 1]).0
  }

  // ------------------------------------------------------------------------- reading

  /** The observations of one deployment, or the failure to read any row at all. */
  function Selected(rows: seq<Row>, d: Deployment): Result<seq<Observation>, StoreError> {
    if rows == [] then Ok([])
    else
      var earlier, last := Selected(rows[..|rows| - 1], d), DecodeObservation(rows[|rows| - 1].payload);
      if earlier.Err? then earlier
      else if last.None? then Err(InvalidStored)
      else if Concerns(d, last.value.identity) then Ok(earlier.value + [last.value])
      else earlier
  }

  lemma DecodedIsValid(j: Json)
    requires DecodeObservation(j).Some?
    ensures Valid(DecodeObservation(j).value)
  {
    hide Valid, DecodeIdentity, DecodeCounts, AsText, AsDecimal, AsArray;
  }

  lemma {:induction false} SelectedIsValid(rows: seq<Row>, d: Deployment)
    requires Selected(rows, d).Ok?
    ensures AllValid(Selected(rows, d).value) && AllTallied(Selected(rows, d).value)
  {
    hide Valid, DecodeObservation;
    if rows != [] {
      var init := rows[..|rows| - 1];
      SelectedIsValid(init, d);
      var last := DecodeObservation(rows[|rows| - 1].payload);
      assert last.Some?;
      DecodedIsValid(rows[|rows| - 1].payload);
    }
    ValidIsTallied(Selected(rows, d).value);
  }

  ghost function AggregateOf(rows: seq<Row>, d: Deployment): Result<Option<Aggregate>, StoreError> {
    if Selected(rows, d).Err? then Err(Selected(rows, d).error)
    else
      var os := Selected(rows, d).value;
      SelectedIsValid(rows, d);
      if os == [] then Ok(None)
      else
        match Aggregated(os)
        case Ok(a) => Ok(Some(a))
        case Err(e) => Err(NotAggregable(e))
  }

  predicate Meets(a: Aggregate, d: Deployment, bar: Bar) {
    && QualifiedCleanliness(a)
    && !(d.stage.Canary? && a.counts.rejections != 0)
    && a.sessions >= bar.sessions && a.orders >= bar.orders && a.fills >= bar.fills
    && a.maximum <= bar.error
  }

  ghost function Qualified(rows: seq<Row>, d: Deployment, bar: Bar): Result<bool, StoreError> {
    match AggregateOf(rows, d)
    case Err(e) => Err(e)
    case Ok(None) => Ok(false)
    case Ok(Some(a)) => Ok(Meets(a, d, bar))
  }

  // --------------------------------------------------------------- the store in place

  class PromotionStore {
    var rows: seq<Row>

    constructor ()
      ensures rows == []
    {
      rows := [];
    }

    method Append(o: Observation) returns (r: Result<bool, StoreError>)
      requires Valid(o)
      modifies this
      ensures (rows, r) == Appended(old(rows), o)
    {
      hide ContentDigestOf, Payload;
      var existing := Find(rows, KeyOf(o.identity));
      if existing.Some? {
        var payload := existing.value;
        if !payload.Obj? || Get(payload.fields, ContentDigest) != ContentDigestOf(o) {
          return Err(Conflict);
        }
        return Ok(false);
      }
      rows := rows + [Row(KeyOf(o.identity), Payload(o))];
      r := Ok(true);
    }

    method Observations(d: Deployment) returns (r: Result<seq<Observation>, StoreError>)
      ensures r == Selected(rows, d)
    {
      hide DecodeObservation;
      var matched: seq<Observation> := [];
      for i := 0 to |rows|
        invariant Selected(rows[..i], d) == Ok(matched)
      {
        assert rows[..i + 1][..i] == rows[..i];
        var observation := DecodeObservation(rows[i].payload);
        if observation.None? {
          FailureStands(rows, i + 1, d);
          return Err(InvalidStored);
        }
        if Concerns(d, observation.value.identity) {
          matched := matched + [observation.value];
        }
      }
      assert rows[..|rows|] == rows;
      r := Ok(matched);
    }

    method Aggregate(d: Deployment) returns (r: Result<Option<Aggregate>, StoreError>)
      ensures r == AggregateOf(rows, d)
    {
      hide Selected, AllValid, AllTallied;
      var observations := Observations(d);
      if observations.Err? {
        return Err(observations.error);
      }
      if observations.value == [] {
        return Ok(None);
      }
      SelectedIsValid(rows, d);
      var a := AggregateObservations(observations.value);
      match a
      case Ok(aggregate) => r := Ok(Some(aggregate));
      case Err(e) => r := Err(NotAggregable(e));
    }

    method Qualifies(d: Deployment, bar: Bar) returns (r: Result<bool, StoreError>)
      ensures r == Qualified(rows, d, bar)
    {
      hide AggregateOf;
      var found := Aggregate(d);
      if found.Err? {
        return Err(found.error);
      }
      if found.value.None? {
        return Ok(false);
      }
      var a := found.value.value;
      if !QualifiedCleanliness(a) {
        return Ok(false);
      }
      if d.stage.Canary? && a.counts.rejections != 0 {
        return Ok(false);
      }
      r := Ok(a.sessions >= bar.sessions && a.orders >= bar.orders && a.fills >= bar.fills
              && a.maximum <= bar.error);
    }
  }

  lemma {:induction false} FailureStands(rows: seq<Row>, i: nat, d: Deployment)
    requires i <= |rows| && Selected(rows[..i], d).Err?
    ensures Selected(rows, d) == Selected(rows[..i], d)
    decreases |rows|
  {
    hide DecodeObservation, Concerns;
    if i == |rows| {
      assert rows[..i] == rows;
    } else {
      var init := rows[..|rows| - 1];
      assert init[..i] == rows[..i];
      FailureStands(init, i, d);
    }
  }
}
