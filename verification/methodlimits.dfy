/**
 Method-limiter bookkeeping as functions on the region's limit map and on the
 shared store's contents (Region.prototype.createMethodLimiter and
 Region.prototype._adjustMethodLimit). The store is a map from keys
 `env + platformId + target + "_limit"` to limit strings.
 */
module MethodLimits {
  import opened Js
  import opened Limits

  /** The limit string a method limiter was built from, and the limiter. */
  datatype MethodLimit = MethodLimit(limit: string, limiter: Limiter)

  /** A store read: the value under `key`, if any. */
  function Stored(data: map<string, string>, key: string): Option<string> {
    if key in data then Some(data[key]) else None
  }

  /** `createMethodLimiter(given, target, forceNew)` when the store read of `key`
      answers `data` (or fails, `storeError`): a limiter is built only for a new
      target or when forced, from the stored limit when the read succeeded and
      found one, else from the given limit. */
  function Created(ml: map<string, MethodLimit>, data: map<string, string>, key: string, namespace: string,
                   given: string, target: string, forceNew: bool, storeError: bool): (r: map<string, MethodLimit>)
    ensures r.Keys == ml.Keys + {target}
    ensures forall t :: t in ml && t != target ==> r[t] == ml[t]
    ensures target in ml && !forceNew ==> r == ml
    ensures target !in ml || forceNew ==>
      && r[target].limit == (if !storeError && key in data then data[key] else given)
      && r[target].limiter == Limiter(namespace, GetLimits(r[target].limit))
  {
    if target !in ml || forceNew then
      var limit := if !storeError && Stored(data, key).Some? then Stored(data, key).value else given;
      ml[target := MethodLimit(limit, Limiter(namespace, GetLimits(limit)))]
    else ml
  }

  /** `_adjustMethodLimit(target, headers)`: when the response reports a limit
      that differs from the cached one, rebuild the limiter (reading the store
      first) and then write the reported limit to the store. */
  function Adjusted(ml: map<string, MethodLimit>, data: map<string, string>, key: string, namespace: string,
                    target: string, reported: Option<string>, storeError: bool): (r: (map<string, MethodLimit>, map<string, string>))
    requires target in ml
    ensures r.0.Keys == ml.Keys
    ensures reported.None? || reported.value == ml[target].limit ==> r == (ml, data)
  {
    if reported.Some? && reported.value != ml[target].limit then
      (Created(ml, data, key, namespace, reported.value, target, true, storeError), data[key := reported.value])
    else (ml, data)
  }

  /** The store is read before it is written: a changed limit rebuilds the
      limiter from the value stored before this response (when there was one),
      not from the reported value, and then stores the reported value. */
  lemma AdjustReadsBeforeWrite(ml: map<string, MethodLimit>, data: map<string, string>, key: string,
                               namespace: string, target: string, reported: string, storeError: bool)
    requires target in ml && reported != ml[target].limit
    ensures var (ml', data') := Adjusted(ml, data, key, namespace, target, Some(reported), storeError);
      && data' == data[key := reported]
      && ml'[target].limit == (if !storeError && key in data then data[key] else reported)
      && (forall t :: t in ml && t != target ==> ml'[t] == ml[t])
  {
  }

  /** Two responses reporting the same new limit bring the cached limit to it: the
      first stores it, the second (if still needed) reads it back. A third
      response changes nothing. */
  lemma AdjustConverges(ml: map<string, MethodLimit>, data: map<string, string>, key: string,
                        namespace: string, target: string, reported: string)
    requires target in ml && reported != ml[target].limit
    ensures var (ml1, data1) := Adjusted(ml, data, key, namespace, target, Some(reported), false);
            var (ml2, data2) := Adjusted(ml1, data1, key, namespace, target, Some(reported), false);
      && ml2[target].limit == reported
      && data2[key] == reported
      && Adjusted(ml2, data2, key, namespace, target, Some(reported), false) == (ml2, data2)
  {
    var (ml1, data1) := Adjusted(ml, data, key, namespace, target, Some(reported), false);
    assert data1 == data[key := reported];
    if ml1[target].limit != reported {
      var (ml2, data2) := Adjusted(ml1, data1, key, namespace, target, Some(reported), false);
      assert ml2[target].limit == data1[key] == reported;
    }
  }

  /** A limit written by one region is what a limiter created afterwards for the
      same store key picks up, in this region or in another one that shares the
      store (a second region object, or another process). */
  lemma AdjustedLimitIsShared(ml: map<string, MethodLimit>, data: map<string, string>, key: string,
                              namespace: string, target: string, reported: string,
                              other: map<string, MethodLimit>, otherNamespace: string, otherDefault: string)
    requires target in ml && reported != ml[target].limit
    requires target !in other
    ensures var data' := Adjusted(ml, data, key, namespace, target, Some(reported), false).1;
      Created(other, data', key, otherNamespace, otherDefault, target, false, false)[target]
        == MethodLimit(reported, Limiter(otherNamespace, GetLimits(reported)))
  {
  }
}
