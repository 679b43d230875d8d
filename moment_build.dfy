/**
 * Building moments from date components, and picking the latest or earliest
 * of several moments.
 *
 * `moment(params:)` fills date components positionally and `moment(dict:)`
 * collects the values of six named keys, in a fixed order, into such a list.
 * Turning the components into a date is the calendar's work and is not part
 * of this model: the result here is the components the calendar is given.
 */
module MomentBuild {
  import opened Wrappers
  import opened MomentUnits

  /** The date components handed to the calendar; an unset component is `None`. */
  datatype DateComponents = DateComponents(
    year: Option<int>, month: Option<int>, day: Option<int>,
    hour: Option<int>, minute: Option<int>, second: Option<int>)

  /** The component at position `i` of the order year, month, day, hour, minute, second. */
  function Component(c: DateComponents, i: nat): Option<int>
    requires i < 6
  {
    if i == 0 then c.year
    else if i == 1 then c.month
    else if i == 2 then c.day
    else if i == 3 then c.hour
    else if i == 4 then c.minute
    else c.second
  }

  const Unset: DateComponents := DateComponents(None, None, None, None, None, None)

  /** The dictionary keys `moment(dict:)` reads, in the order it reads them. */
  const KeyOrder: seq<string> := ["year", "month", "day", "hour", "minute", "second"]

  /**
   * `moment(params:)`: the first six values become year, month, day, hour,
   * minute and second in that order, the rest are ignored, and an empty list
   * gives no moment.
   */
  method ComponentsFromParams(params: seq<int>) returns (r: Option<DateComponents>)
    ensures r.None? <==> |params| == 0
    ensures r.Some? ==> forall i :: 0 <= i < 6 ==>
              Component(r.value, i) == if i < |params| then Some(params[i]) else None
  {
    if |params| > 0 {
      var components := Unset;
      components := components.(year := Some(params[0]));
      if |params| > 1 {
        components := components.(month := Some(params[1]));
        if |params| > 2 {
          components := components.(day := Some(params[2]));
          if |params| > 3 {
            components := components.(hour := Some(params[3]));
            if |params| > 4 {
              components := components.(minute := Some(params[4]));
              if |params| > 5 {
                components := components.(second := Some(params[5]));
              }
            }
          }
        }
      }
      return Some(components);
    }
    return None;
  }

  /** The values of the keys of `keys` present in `dict`, in the order of `keys`. */
  function Collect(keys: seq<string>, dict: map<string, int>): seq<int>
    decreases |keys|
  {
    if keys == [] then []
    else
      var last := keys[|keys| - 1];
      Collect(keys[..|keys| - 1], dict) + if last in dict then [dict[last]] else []
  }

  /** The key order, grown one key at a time. */
  lemma KeyOrderPrefixes()
    ensures [] + ["year"] == ["year"]
    ensures ["year"] + ["month"] == ["year", "month"]
    ensures ["year", "month"] + ["day"] == ["year", "month", "day"]
    ensures ["year", "month", "day"] + ["hour"] == ["year", "month", "day", "hour"]
    ensures ["year", "month", "day", "hour"] + ["minute"] == ["year", "month", "day", "hour", "minute"]
    ensures ["year", "month", "day", "hour", "minute"] + ["second"] == KeyOrder
  {
  }

  /** Collecting over one more key appends that key's value when it is present. */
  lemma CollectSnoc(keys: seq<string>, key: string, dict: map<string, int>)
    ensures Collect(keys + [key], dict) == Collect(keys, dict) + if key in dict then [dict[key]] else []
  {
    assert (keys + [key])[..|keys|] == keys;
  }

  /** Collecting gives one value per present key, in key order. */
  lemma {:induction false} CollectLength(keys: seq<string>, dict: map<string, int>)
    ensures |Collect(keys, dict)| <= |keys|
    ensures (forall k :: k in keys ==> k in dict) ==> Collect(keys, dict) == seq(|keys|, i requires 0 <= i < |keys| => dict[keys[i]])
    ensures (forall k :: k in keys ==> k !in dict) <==> Collect(keys, dict) == []
    decreases |keys|
  {
    if keys != [] {
      var init := keys[..|keys| - 1];
      assert forall k :: k in init ==> k in keys;
      CollectLength(init, dict);
      if forall k :: k in keys ==> k !in dict {
      } else {
        var k :| k in keys && k in dict;
        if k != keys[|keys| - 1] {
          var j :| 0 <= j < |keys| && keys[j] == k;
          assert k in init by { assert init[j] == k; }
        }
      }
    }
  }

  /** The parameter list `moment(dict:)` builds: the values of the keys year, month,
      day, hour, minute and second that are present, in that order. */
  method ParamsFromDict(dict: map<string, int>) returns (params: seq<int>)
    ensures params == Collect(KeyOrder, dict)
  {
    KeyOrderPrefixes();
    params := [];
    if "year" in dict {
      params := params + [dict["year"]];
    }
    CollectSnoc([], "year", dict);
    assert params == Collect(["year"], dict);
    if "month" in dict {
      params := params + [dict["month"]];
    }
    CollectSnoc(["year"], "month", dict);
    assert params == Collect(["year", "month"], dict);
    if "day" in dict {
      params := params + [dict["day"]];
    }
    CollectSnoc(["year", "month"], "day", dict);
    assert params == Collect(["year", "month", "day"], dict);
    if "hour" in dict {
      params := params + [dict["hour"]];
    }
    CollectSnoc(["year", "month", "day"], "hour", dict);
    assert params == Collect(["year", "month", "day", "hour"], dict);
    if "minute" in dict {
      params := params + [dict["minute"]];
    }
    CollectSnoc(["year", "month", "day", "hour"], "minute", dict);
    assert params == Collect(["year", "month", "day", "hour", "minute"], dict);
    if "second" in dict {
      params := params + [dict["second"]];
    }
    CollectSnoc(["year", "month", "day", "hour", "minute"], "second", dict);
  }

  /**
   * `moment(dict:)`: no moment for an empty dictionary or one without any of the
   * six keys; otherwise the collected values are assigned positionally.
   */
  method ComponentsFromDict(dict: map<string, int>) returns (r: Option<DateComponents>)
    ensures r.None? <==> forall k :: k in KeyOrder ==> k !in dict
    ensures r.Some? ==> forall i :: 0 <= i < 6 ==>
              Component(r.value, i) == if i < |Collect(KeyOrder, dict)| then Some(Collect(KeyOrder, dict)[i]) else None
    ensures (forall k :: k in KeyOrder ==> k in dict) ==>
              r == Some(DateComponents(Some(dict["year"]), Some(dict["month"]), Some(dict["day"]),
                                       Some(dict["hour"]), Some(dict["minute"]), Some(dict["second"])))
  {
    CollectLength(KeyOrder, dict);
    if |dict| > 0 {
      var params := ParamsFromDict(dict);
      r := ComponentsFromParams(params);
      if forall k :: k in KeyOrder ==> k in dict {
        var c := r.value;
        assert Component(c, 0) == Some(dict["year"]) && Component(c, 1) == Some(dict["month"]);
        assert Component(c, 2) == Some(dict["day"]) && Component(c, 3) == Some(dict["hour"]);
        assert Component(c, 4) == Some(dict["minute"]) && Component(c, 5) == Some(dict["second"]);
      }
    } else {
      assert forall k :: k !in dict;
      r := None;
    }
  }

  /** Values shift position when a key is missing: a dictionary with only a month
      sets the year component to the month's value. */
  lemma MissingYearShiftsMonth(month: int)
    ensures Collect(KeyOrder, map["month" := month]) == [month]
  {
    var d := map["month" := month];
    CollectSnoc([], "year", d);
    CollectSnoc(["year"], "month", d);
    CollectSnoc(["year", "month"], "day", d);
    CollectSnoc(["year", "month", "day"], "hour", d);
    CollectSnoc(["year", "month", "day", "hour"], "minute", d);
    CollectSnoc(["year", "month", "day", "hour", "minute"], "second", d);
    KeyOrderPrefixes();
  }

  /** `m` is later than every moment in `ms`, and strictly later than the ones before
      position `k`: the first latest moment. */
  predicate IsFirstLatest(ms: seq<Moment>, k: nat) {
    k < |ms|
    && (forall j :: 0 <= j < |ms| ==> ms[j].date <= ms[k].date)
    && (forall j :: 0 <= j < k ==> ms[j].date < ms[k].date)
  }

  /** The first earliest moment. */
  predicate IsFirstEarliest(ms: seq<Moment>, k: nat) {
    k < |ms|
    && (forall j :: 0 <= j < |ms| ==> ms[k].date <= ms[j].date)
    && (forall j :: 0 <= j < k ==> ms[k].date < ms[j].date)
  }

  /** `maximum`: nothing for no moments; otherwise the first of the latest ones. */
  method Maximum(moments: seq<Moment>) returns (r: Option<Moment>)
    ensures r.None? <==> |moments| == 0
    ensures r.Some? ==> exists k :: 0 <= k < |moments| && IsFirstLatest(moments, k) && r.value == moments[k]
  {
    if |moments| > 0 {
      var max := moments[0];
      ghost var k := 0;
      for i := 0 to |moments|
        invariant k < |moments| && max == moments[k] && (k == 0 || k < i)
        invariant forall j :: 0 <= j < i ==> moments[j].date <= max.date
        invariant forall j :: 0 <= j < k ==> moments[j].date < max.date
      {
        if moments[i].date - max.date > 0 {
          max := moments[i];
          k := i;
        }
      }
      assert IsFirstLatest(moments, k);
      return Some(max);
    }
    return None;
  }

  /** `minimum`: nothing for no moments; otherwise the first of the earliest ones. */
  method Minimum(moments: seq<Moment>) returns (r: Option<Moment>)
    ensures r.None? <==> |moments| == 0
    ensures r.Some? ==> exists k :: 0 <= k < |moments| && IsFirstEarliest(moments, k) && r.value == moments[k]
  {
    if |moments| > 0 {
      var min := moments[0];
      ghost var k := 0;
      for i := 0 to |moments|
        invariant k < |moments| && min == moments[k] && (k == 0 || k < i)
        invariant forall j :: 0 <= j < i ==> min.date <= moments[j].date
        invariant forall j :: 0 <= j < k ==> min.date < moments[j].date
      {
        if moments[i].date - min.date < 0 {
          min := moments[i];
          k := i;
        }
      }
      assert IsFirstEarliest(moments, k);
      return Some(min);
    }
    return None;
  }

  /** At most one position holds the first latest moment, so `maximum`'s result is determined. */
  lemma FirstLatestUnique(ms: seq<Moment>, j: nat, k: nat)
    requires IsFirstLatest(ms, j) && IsFirstLatest(ms, k)
    ensures j == k
  {
    assert ms[k].date <= ms[j].date && ms[j].date <= ms[k].date;
  }
}
