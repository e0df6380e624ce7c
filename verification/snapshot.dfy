/**
 * `handle_data`: the snapshot aggregator. A parsed sentence is folded into
 * the snapshot by its device's copy table; each copy is guarded by the
 * attribute's truthiness and the last write wins.
 */
module Snapshot {
  import opened Wrappers
  import opened Values
  import opened Nmea

  /** One guarded copy of the table. */
  function Copy(d: Dict, r: Reading, f: Field): Dict {
    if Truthy(Get(r, f.attr)) then Put(d, f.key, r[f.attr]) else d
  }

  /** The copies of `rule`, performed in order. */
  function ApplyRule(d: Dict, r: Reading, rule: seq<Field>): Dict
    decreases |rule|
  {
    if rule == [] then d else ApplyRule(Copy(d, r, rule[0]), r, rule[1..])
  }

  /** What `handle_data(sorted_data, device_data, device)` leaves in `sorted_data`. */
  function Dispatch(d: Dict, r: Reading, device: string): Dict {
    ApplyRule(d, r, Rule(device))
  }

  /**
   * Reference definition of the outcome at one key: the value of the LAST
   * copy in `rule` that targets `key` and whose attribute is truthy.
   */
  function Written(r: Reading, rule: seq<Field>, key: string): Option<Value>
    decreases |rule|
  {
    if rule == [] then None
    else
      Written(r, rule[1..], key).Or(
        if rule[0].key == key && Truthy(Get(r, rule[0].attr)) then Get(r, rule[0].attr) else None)
  }

  /** The fold agrees with the reference definition at every key. */
  lemma {:induction false} ApplyRuleAt(d: Dict, r: Reading, rule: seq<Field>, k: string)
    ensures Get(ApplyRule(d, r, rule).vals, k) == Written(r, rule, k).Or(Get(d.vals, k))
    decreases |rule|
  {
    if rule != [] {
      ApplyRuleAt(Copy(d, r, rule[0]), r, rule[1..], k);
    }
  }

  /** Folding a concatenation folds the second table over the result of the first. */
  lemma {:induction false} ApplyRuleAppend(d: Dict, r: Reading, a: seq<Field>, b: seq<Field>)
    ensures ApplyRule(d, r, a + b) == ApplyRule(ApplyRule(d, r, a), r, b)
    decreases |a|
  {
    if a != [] {
      assert (a + b)[1..] == a[1..] + b;
      ApplyRuleAppend(Copy(d, r, a[0]), r, a[1..], b);
    } else {
      assert a + b == b;
    }
  }

  // The fold over tables of the lengths `handle_data` uses, written out.

  lemma Unroll1(d: Dict, r: Reading, rule: seq<Field>)
    requires |rule| == 1
    ensures ApplyRule(d, r, rule) == Copy(d, r, rule[0])
  {
    assert rule[1..] == [];
  }

  lemma Unroll2(d: Dict, r: Reading, rule: seq<Field>)
    requires |rule| == 2
    ensures ApplyRule(d, r, rule) == Copy(Copy(d, r, rule[0]), r, rule[1])
  {
    Unroll1(Copy(d, r, rule[0]), r, rule[1..]);
  }

  lemma Unroll3(d: Dict, r: Reading, rule: seq<Field>)
    requires |rule| == 3
    ensures ApplyRule(d, r, rule) == Copy(Copy(Copy(d, r, rule[0]), r, rule[1]), r, rule[2])
  {
    Unroll2(Copy(d, r, rule[0]), r, rule[1..]);
  }

  lemma Unroll4(d: Dict, r: Reading, rule: seq<Field>)
    requires |rule| == 4
    ensures ApplyRule(d, r, rule)
         == Copy(Copy(Copy(Copy(d, r, rule[0]), r, rule[1]), r, rule[2]), r, rule[3])
  {
    Unroll3(Copy(d, r, rule[0]), r, rule[1..]);
  }

  lemma Unroll8(d: Dict, r: Reading, rule: seq<Field>)
    requires |rule| == 8
    ensures ApplyRule(d, r, rule)
         == Copy(Copy(Copy(Copy(Copy(Copy(Copy(Copy(d, r, rule[0]), r, rule[1]), r, rule[2]),
              r, rule[3]), r, rule[4]), r, rule[5]), r, rule[6]), r, rule[7])
  {
    assert rule == rule[..4] + rule[4..];
    ApplyRuleAppend(d, r, rule[..4], rule[4..]);
    Unroll4(d, r, rule[..4]);
    Unroll4(ApplyRule(d, r, rule[..4]), r, rule[4..]);
  }

  /**
   * The fold keeps the dictionary well formed, only appends to the key
   * order, and appends nothing when every key it would write is present.
   */
  lemma {:induction false} ApplyRuleOrder(d: Dict, r: Reading, rule: seq<Field>)
    requires WellFormed(d)
    ensures WellFormed(ApplyRule(d, r, rule))
    ensures d.order <= ApplyRule(d, r, rule).order
    ensures d.vals.Keys <= ApplyRule(d, r, rule).vals.Keys
    ensures (forall i :: 0 <= i < |rule| && Truthy(Get(r, rule[i].attr)) ==> rule[i].key in d.vals)
            ==> ApplyRule(d, r, rule).order == d.order
    decreases |rule|
  {
    if rule != [] {
      var d' := Copy(d, r, rule[0]);
      ApplyRuleOrder(d', r, rule[1..]);
      if forall i :: 0 <= i < |rule| && Truthy(Get(r, rule[i].attr)) ==> rule[i].key in d.vals {
        assert d'.order == d.order && d'.vals.Keys == d.vals.Keys;
        forall i | 0 <= i < |rule| - 1 && Truthy(Get(r, rule[1..][i].attr))
          ensures rule[1..][i].key in d'.vals
        {
          assert rule[1..][i] == rule[i + 1];
        }
      }
    }
  }

  /** A copy whose attribute is truthy leaves something at its key. */
  lemma {:induction false} WrittenSome(r: Reading, rule: seq<Field>, i: nat)
    requires i < |rule| && Truthy(Get(r, rule[i].attr))
    ensures Written(r, rule, rule[i].key).Some?
    decreases |rule|
  {
    if i > 0 {
      assert rule[1..][i - 1] == rule[i];
      WrittenSome(r, rule[1..], i - 1);
    }
  }

  /** A key that no copy of `rule` targets gets nothing. */
  lemma {:induction false} WrittenNone(r: Reading, rule: seq<Field>, k: string)
    requires forall i :: 0 <= i < |rule| ==> rule[i].key != k
    ensures Written(r, rule, k) == None
    decreases |rule|
  {
    if rule != [] {
      assert forall i :: 0 <= i < |rule| - 1 ==> rule[1..][i] == rule[i + 1];
      WrittenNone(r, rule[1..], k);
    }
  }

  /** With distinct keys, the outcome at a copy's key is that copy's attribute, if truthy. */
  lemma {:induction false} WrittenDistinct(r: Reading, rule: seq<Field>, i: nat)
    requires i < |rule| && DistinctKeys(rule)
    ensures Written(r, rule, rule[i].key)
            == if Truthy(Get(r, rule[i].attr)) then Get(r, rule[i].attr) else None
    decreases |rule|
  {
    var tail := rule[1..];
    assert forall j :: 0 <= j < |tail| ==> tail[j] == rule[j + 1];
    if i == 0 {
      WrittenNone(r, tail, rule[0].key);
    } else {
      WrittenDistinct(r, tail, i - 1);
    }
  }

  /** `handle_data` writes only the output keys of the given device; every other key keeps its value. */
  lemma DispatchFrame(d: Dict, r: Reading, device: string, k: string)
    requires k !in OutKeys(device)
    ensures Get(Dispatch(d, r, device).vals, k) == Get(d.vals, k)
  {
    var rule := Rule(device);
    forall i | 0 <= i < |rule| ensures rule[i].key != k {
      assert rule[i] in rule;
    }
    WrittenNone(r, rule, k);
    ApplyRuleAt(d, r, rule, k);
  }

  /**
   * At each output key of the device: a truthy attribute overwrites the
   * previous value; a falsy one (0, "", None) leaves the key as it was,
   * absent or holding its old value.
   */
  lemma DispatchField(d: Dict, r: Reading, device: string, i: nat)
    requires i < |Rule(device)|
    ensures var f := Rule(device)[i];
      Get(Dispatch(d, r, device).vals, f.key)
        == if Truthy(Get(r, f.attr)) then Get(r, f.attr) else Get(d.vals, f.key)
  {
    RuleKeysDistinct(device);
    WrittenDistinct(r, Rule(device), i);
    ApplyRuleAt(d, r, Rule(device), Rule(device)[i].key);
  }

  /**
   * Last write wins across two sentences of the same kind: at each output
   * key the second sentence's truthy value, else the first's, else the
   * value from before both.
   */
  lemma OverwriteLaw(d: Dict, r1: Reading, r2: Reading, device: string, i: nat)
    requires i < |Rule(device)|
    ensures var f := Rule(device)[i];
      Get(Dispatch(Dispatch(d, r1, device), r2, device).vals, f.key)
        == if Truthy(Get(r2, f.attr)) then Get(r2, f.attr)
           else if Truthy(Get(r1, f.attr)) then Get(r1, f.attr)
           else Get(d.vals, f.key)
  {
    DispatchField(d, r1, device, i);
    DispatchField(Dispatch(d, r1, device), r2, device, i);
  }

  /**
   * `handle_data` keeps the snapshot well formed and never removes a key:
   * the old insertion order is a prefix of the new one.
   */
  lemma DispatchGrows(d: Dict, r: Reading, device: string)
    requires WellFormed(d)
    ensures WellFormed(Dispatch(d, r, device))
    ensures d.order <= Dispatch(d, r, device).order
    ensures d.vals.Keys <= Dispatch(d, r, device).vals.Keys
  {
    ApplyRuleOrder(d, r, Rule(device));
  }

  /** Applying the same parsed sentence twice gives the same snapshot as applying it once. */
  lemma DispatchIdempotent(d: Dict, r: Reading, device: string)
    requires WellFormed(d)
    ensures Dispatch(Dispatch(d, r, device), r, device) == Dispatch(d, r, device)
  {
    var rule := Rule(device);
    var once := Dispatch(d, r, device);
    var twice := Dispatch(once, r, device);
    ApplyRuleOrder(d, r, rule);
    forall i | 0 <= i < |rule| && Truthy(Get(r, rule[i].attr)) ensures rule[i].key in once.vals {
      WrittenSome(r, rule, i);
      ApplyRuleAt(d, r, rule, rule[i].key);
    }
    ApplyRuleOrder(once, r, rule);
    forall k ensures Get(twice.vals, k) == Get(once.vals, k) {
      ApplyRuleAt(d, r, rule, k);
      ApplyRuleAt(once, r, rule, k);
    }
    MapExt(twice.vals, once.vals);
  }

  /** A device code with no `case`, the whitelisted "$GPHDT" among them, changes nothing. */
  lemma UnhandledUnchanged(d: Dict, r: Reading, device: string)
    requires Rule(device) == []
    ensures Dispatch(d, r, device) == d
  {
  }

  // One unfolding of `Dispatch` per sentence kind, in `handle_data` order.

  lemma DispatchDpt(d: Dict, r: Reading)
    ensures Dispatch(d, r, "$GPDPT") == Copy(d, r, Field("depth", "depth"))
  {
    Unroll1(d, r, Rule("$GPDPT"));
  }

  lemma DispatchGga(d: Dict, r: Reading)
    ensures Dispatch(d, r, "$GPGGA")
         == var d1 := Copy(Copy(Copy(Copy(d, r, Field("lat", "lat")), r, Field("lat_dir", "lat_dir")),
                                r, Field("lon", "lon")), r, Field("lon_dir", "lon_dir"));
            Copy(Copy(Copy(Copy(d1, r, Field("num_sats", "num_sats")),
                           r, Field("horizontal_dil", "horizontal_dil")),
                      r, Field("altitude", "altitude")), r, Field("geo_sep", "geo_sep"))
  {
    Unroll8(d, r, Rule("$GPGGA"));
  }

  lemma DispatchGsv(d: Dict, r: Reading)
    ensures Dispatch(d, r, "$GPGSV") == Copy(d, r, Field("geo_sep", "geo_sep"))
  {
    Unroll1(d, r, Rule("$GPGSV"));
  }

  lemma DispatchHdg(d: Dict, r: Reading)
    ensures Dispatch(d, r, "$GPHDG") == Copy(d, r, Field("heading", "heading"))
  {
    Unroll1(d, r, Rule("$GPHDG"));
  }

  lemma DispatchMtw(d: Dict, r: Reading)
    ensures Dispatch(d, r, "$GPMTW") == Copy(d, r, Field("temperature", "temperature"))
  {
    Unroll1(d, r, Rule("$GPMTW"));
  }

  lemma DispatchMwv(d: Dict, r: Reading)
    ensures Dispatch(d, r, "$GPMWV")
         == Copy(Copy(d, r, Field("wind_angle", "AWA")), r, Field("wind_speed", "AWS"))
  {
    Unroll2(d, r, Rule("$GPMWV"));
  }

  lemma DispatchRmc(d: Dict, r: Reading)
    ensures Dispatch(d, r, "$GPRMC")
         == Copy(Copy(Copy(Copy(d, r, Field("spd_over_grnd", "speed")),
                           r, Field("true_course", "true_course")),
                      r, Field("mag_variation", "mag_var")),
                 r, Field("mag_var_dir", "mag_var_dir"))
  {
    Unroll4(d, r, Rule("$GPRMC"));
  }

  lemma DispatchRot(d: Dict, r: Reading)
    ensures Dispatch(d, r, "$GPROT") == Copy(d, r, Field("rate_of_turn", "rate_of_turn"))
  {
    Unroll1(d, r, Rule("$GPROT"));
  }

  lemma DispatchVhw(d: Dict, r: Reading)
    ensures Dispatch(d, r, "$GPVHW")
         == Copy(Copy(Copy(d, r, Field("heading_true", "true_heading")),
                      r, Field("heading_magnetic", "heading_magnetic")),
                 r, Field("water_speed_knots", "water_speed"))
  {
    Unroll3(d, r, Rule("$GPVHW"));
  }

  lemma DispatchVlw(d: Dict, r: Reading)
    ensures Dispatch(d, r, "$GPVLW") == Copy(d, r, Field("trip_distance", "trip_distance"))
  {
    Unroll1(d, r, Rule("$GPVLW"));
  }

  lemma DispatchVtg(d: Dict, r: Reading)
    ensures Dispatch(d, r, "$GPVTG")
         == Copy(Copy(d, r, Field("true_track", "true_track")), r, Field("mag_track", "mag_track"))
  {
    Unroll2(d, r, Rule("$GPVTG"));
  }

  lemma DispatchZda(d: Dict, r: Reading)
    ensures Dispatch(d, r, "$GPZDA") == Copy(d, r, Field("local_zone", "local_zone"))
  {
    Unroll1(d, r, Rule("$GPZDA"));
  }

  /** The `sorted_data` dict, updated in place. */
  class SortedData {
    var order: seq<string>
    var vals: map<string, Value>

    function Model(): Dict
      reads this
    {
      Dict(order, vals)
    }

    ghost predicate Valid()
      reads this
    {
      WellFormed(Model())
    }

    /** `sorted_data = {}` */
    constructor ()
      ensures Valid() && Model() == Empty
    {
      order, vals := [], map[];
    }

    /** `sorted_data[k] = v` */
    method Store(k: string, v: Value)
      modifies this
      ensures Model() == Put(old(Model()), k, v)
    {
      if k !in vals {
        order := order + [k];
      }
      vals := vals[k := v];
    }

    /** `if device_data.<attr>: sorted_data[<key>] = device_data.<attr>` */
    method CopyIfTruthy(r: Reading, f: Field)
      modifies this
      ensures Model() == Copy(old(Model()), r, f)
    {
      var a := Get(r, f.attr);
      if Truthy(a) {
        Store(f.key, a.value);
      }
    }

    /** `handle_data(sorted_data, device_data, device)` */
    method HandleData(r: Reading, device: string)
      requires Valid()
      modifies this
      ensures Valid()
      ensures Model() == Dispatch(old(Model()), r, device)
    {
      ghost var d0 := Model();
      match device {
        case "$GPDPT" =>
          CopyIfTruthy(r, Field("depth", "depth"));
          DispatchDpt(d0, r);
        case "$GPGGA" =>
          CopyIfTruthy(r, Field("lat", "lat"));
          CopyIfTruthy(r, Field("lat_dir", "lat_dir"));
          CopyIfTruthy(r, Field("lon", "lon"));
          CopyIfTruthy(r, Field("lon_dir", "lon_dir"));
          CopyIfTruthy(r, Field("num_sats", "num_sats"));
          CopyIfTruthy(r, Field("horizontal_dil", "horizontal_dil"));
          CopyIfTruthy(r, Field("altitude", "altitude"));
          CopyIfTruthy(r, Field("geo_sep", "geo_sep"));
          DispatchGga(d0, r);
        case "$GPGSV" =>
          CopyIfTruthy(r, Field("geo_sep", "geo_sep"));
          DispatchGsv(d0, r);
        case "$GPHDG" =>
          CopyIfTruthy(r, Field("heading", "heading"));
          DispatchHdg(d0, r);
        case "$GPMTW" =>
          CopyIfTruthy(r, Field("temperature", "temperature"));
          DispatchMtw(d0, r);
        case "$GPMWV" =>
          CopyIfTruthy(r, Field("wind_angle", "AWA"));
          CopyIfTruthy(r, Field("wind_speed", "AWS"));
          DispatchMwv(d0, r);
        case "$GPRMC" =>
          CopyIfTruthy(r, Field("spd_over_grnd", "speed"));
          CopyIfTruthy(r, Field("true_course", "true_course"));
          CopyIfTruthy(r, Field("mag_variation", "mag_var"));
          CopyIfTruthy(r, Field("mag_var_dir", "mag_var_dir"));
          DispatchRmc(d0, r);
        case "$GPROT" =>
          CopyIfTruthy(r, Field("rate_of_turn", "rate_of_turn"));
          DispatchRot(d0, r);
        case "$GPVHW" =>
          CopyIfTruthy(r, Field("heading_true", "true_heading"));
          CopyIfTruthy(r, Field("heading_magnetic", "heading_magnetic"));
          CopyIfTruthy(r, Field("water_speed_knots", "water_speed"));
          DispatchVhw(d0, r);
        case "$GPVLW" =>
          CopyIfTruthy(r, Field("trip_distance", "trip_distance"));
          DispatchVlw(d0, r);
        case "$GPVTG" =>
          CopyIfTruthy(r, Field("true_track", "true_track"));
          CopyIfTruthy(r, Field("mag_track", "mag_track"));
          DispatchVtg(d0, r);
        case "$GPZDA" =>
          CopyIfTruthy(r, Field("local_zone", "local_zone"));
          DispatchZda(d0, r);
        case _ =>
      }
      assert Valid() by { DispatchGrows(d0, r, device); }
    }
  }
}
