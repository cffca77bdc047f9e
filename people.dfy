/** Profile-update records.  Every public operation builds one record
    `{$token, $time[, $ignore_time], <action>: ...}` and routes it: with a
    known distinct id the record is stamped with `$distinct_id` and handed to
    the delegate (returned here as `delegated`); without one it is staged in
    the unidentified queue, which keeps at most 500 records and drops the
    oldest.  Times are whole seconds; `$time` holds milliseconds. */
module People {
  import opened Values
  import Queues

  /** Capacity of the unidentified queue. */
  const UnidentifiedQueueCapacity: nat := 500

  /** The keys every record sets before its action key. */
  const ReservedKeys: set<string> := {"$token", "$time", "$ignore_time"}

  /** What the record stores under its action key: for `$unset` the value
      given under `$properties` (nothing when absent); for `$set` and
      `$set_once` the automatic people properties overridden by the user's;
      for every other action the user's properties alone. */
  function ActionPayload(action: string, properties: Properties, automatic: Properties): (v: Option<Value>)
    ensures action == "$unset" ==> (v.Some? <==> "$properties" in properties)
    ensures action == "$unset" && "$properties" in properties ==> v == Some(properties["$properties"])
    ensures action != "$unset" ==> v.Some? && v.value.Dict?
    ensures action in {"$set", "$set_once"} ==>
      forall k :: k in v.value.entries <==> k in automatic || k in properties
    ensures action in {"$set", "$set_once"} ==>
      forall k :: k in properties ==> v.value.entries[k] == properties[k]
    ensures action in {"$set", "$set_once"} ==>
      forall k :: k in automatic && k !in properties ==> v.value.entries[k] == automatic[k]
    ensures action != "$unset" && action !in {"$set", "$set_once"} ==> v == Some(Dict(properties))
  {
    if action == "$unset" then
      if "$properties" in properties then Some(properties["$properties"]) else None
    else if action == "$set" || action == "$set_once" then Some(Dict(automatic + properties))
    else Some(Dict(properties))
  }

  /** The record `addPeopleRecordToQueueWithAction` builds, before routing. */
  function PeopleRecord(apiToken: string, now: int, ignoreTime: Option<bool>, action: string,
                        properties: Properties, automatic: Properties): (r: Properties)
    ensures action !in ReservedKeys ==>
      && "$token" in r && "$time" in r
      && r["$token"] == Str(apiToken)
      && r["$time"] == Double((now * 1000) as real)
      && ("$ignore_time" in r <==> ignoreTime.Some?)
      && (ignoreTime.Some? ==> r["$ignore_time"] == Bool(ignoreTime.value))
    ensures action !in ReservedKeys ==>
      r.Keys == {"$token", "$time"}
                + (if ignoreTime.Some? then {"$ignore_time"} else {})
                + (if ActionPayload(action, properties, automatic).Some? then {action} else {})
    ensures action in r ==> r[action] == ActionPayload(action, properties, automatic).value
  {
    var r := map["$token" := Str(apiToken), "$time" := Double((now * 1000) as real)];
    var r := if ignoreTime.Some? then r["$ignore_time" := Bool(ignoreTime.value)] else r;
    var payload := ActionPayload(action, properties, automatic);
    if payload.Some? then r[action := payload.value]
    else if action in r then r - {action} else r
  }

  /** The entries `increment`'s filter keeps: those whose value is not a
      number (a bridged boolean is an NSNumber and is not kept). One key
      per value of `properties.values`. */
  function NonNumbers(properties: Properties): set<string> {
    set k | k in properties && !IsNumeric(properties[k])
  }

  /** `increment` goes ahead when its filter keeps nothing. */
  predicate AllNumbers(properties: Properties) {
    |NonNumbers(properties)| == 0
  }

  /** The filter keeps nothing exactly when every value is a number. */
  lemma AllNumbersIffEveryValueNumeric(properties: Properties)
    ensures AllNumbers(properties) <==> forall k :: k in properties ==> IsNumeric(properties[k])
  {
    if exists k :: k in properties && !IsNumeric(properties[k]) {
      var k :| k in properties && !IsNumeric(properties[k]);
      assert k in NonNumbers(properties);
    } else {
      assert NonNumbers(properties) == {};
    }
  }

  /** The entries `union`'s filter keeps: those whose value is not an array. */
  function NonArrays(properties: Properties): set<string> {
    set k | k in properties && !properties[k].Array?
  }

  /** `union` goes ahead when its filter keeps nothing. */
  predicate AllArrays(properties: Properties) {
    |NonArrays(properties)| == 0
  }

  /** The filter keeps nothing exactly when every value is an array. */
  lemma AllArraysIffEveryValueArray(properties: Properties)
    ensures AllArrays(properties) <==> forall k :: k in properties ==> properties[k].Array?
  {
    if exists k :: k in properties && !properties[k].Array? {
      var k :| k in properties && !properties[k].Array?;
      assert k in NonArrays(properties);
    } else {
      assert NonArrays(properties) == {};
    }
  }

  /** The transaction `trackCharge` appends: amount and time, overridden
      by the supplied properties. */
  function ChargeTransaction(amount: real, now: int, properties: Option<Properties>): (t: Properties)
    ensures t.Keys == {"$amount", "$time"} + (if properties.Some? then properties.value.Keys else {})
    ensures properties.Some? ==> forall k :: k in properties.value ==> t[k] == properties.value[k]
    ensures properties.None? || "$amount" !in properties.value ==> t["$amount"] == Double(amount)
    ensures properties.None? || "$time" !in properties.value ==> t["$time"] == Date(now)
  {
    var transaction := map["$amount" := Double(amount), "$time" := Date(now)];
    if properties.Some? then transaction + properties.value else transaction
  }

  /** A lower-case hexadecimal digit. */
  function HexDigit(n: nat): (c: char)
    requires n < 16
    ensures '0' <= c <= '9' || 'a' <= c <= 'f'
  {
    if n < 10 then ('0' as int + n) as char else ('a' as int + n - 10) as char
  }

  /** `%02.2hhx`: two lower-case hex digits, high nibble first. */
  function HexByte(b: Byte): (s: string)
    ensures |s| == 2
  {
    [HexDigit(b / 16), HexDigit(b % 16)]
  }

  /** The device token as a string of hex digit pairs, one per byte. */
  function HexEncode(bytes: seq<Byte>): (s: string)
    ensures |s| == 2 * |bytes|
  {
    if bytes == [] then [] else HexByte(bytes[0]) + HexEncode(bytes[1..])
  }

  /** The value of a lower-case hex digit. */
  function HexValue(c: char): (n: Option<nat>)
    ensures n.Some? ==> n.value < 16
  {
    if '0' <= c <= '9' then Some(c as int - '0' as int)
    else if 'a' <= c <= 'f' then Some(c as int - 'a' as int + 10)
    else None
  }

  /** Reading a hex string back as bytes; `None` for an odd length or a
      character that is not a lower-case hex digit. */
  function HexDecode(s: string): (r: Option<seq<Byte>>)
    ensures r.Some? ==> |s| == 2 * |r.value|
    decreases |s|
  {
    if s == [] then Some([])
    else if |s| == 1 then None
    else
      var hi := HexValue(s[0]);
      var lo := HexValue(s[1]);
      var rest := HexDecode(s[2..]);
      if hi.None? || lo.None? || rest.None? then None
      else Some([(hi.value * 16 + lo.value) as Byte] + rest.value)
  }

  /** Appending a byte appends its two digits. */
  lemma {:induction false} HexEncodeSnoc(bytes: seq<Byte>, b: Byte)
    ensures HexEncode(bytes + [b]) == HexEncode(bytes) + HexByte(b)
    decreases |bytes|
  {
    if bytes == [] {
      assert [] + [b] == [b];
    } else {
      assert (bytes + [b])[1..] == bytes[1..] + [b];
      HexEncodeSnoc(bytes[1..], b);
    }
  }

  /** The push token encoding is injective: decoding the string gives the
      token's bytes back. */
  lemma {:induction false} HexRoundTrip(bytes: seq<Byte>)
    ensures HexDecode(HexEncode(bytes)) == Some(bytes)
    decreases |bytes|
  {
    if bytes != [] {
      var b := bytes[0];
      var s := HexEncode(bytes);
      assert s[0] == HexDigit(b / 16) && s[1] == HexDigit(b % 16);
      assert s[2..] == HexEncode(bytes[1..]);
      HexRoundTrip(bytes[1..]);
      assert [b] + bytes[1..] == bytes;
    }
  }

  /** Encoding a concatenation concatenates the encodings. */
  lemma {:induction false} HexEncodeAppend(xs: seq<Byte>, ys: seq<Byte>)
    ensures HexEncode(xs + ys) == HexEncode(xs) + HexEncode(ys)
    decreases |xs|
  {
    if xs == [] {
      assert xs + ys == ys;
    } else {
      assert (xs + ys)[0] == xs[0];
      assert (xs + ys)[1..] == xs[1..] + ys;
      HexEncodeAppend(xs[1..], ys);
    }
  }

  /** A token cut into four pieces encodes as the four pieces' encodings,
      in order. */
  lemma HexEncodeFourPieces(q0: seq<Byte>, q1: seq<Byte>, q2: seq<Byte>, q3: seq<Byte>)
    ensures HexEncode(q0 + q1 + q2 + q3) == HexEncode(q0) + HexEncode(q1) + HexEncode(q2) + HexEncode(q3)
  {
    HexEncodeAppend(q0, q1);
    HexEncodeAppend(q0 + q1, q2);
    HexEncodeAppend(q0 + q1 + q2, q3);
  }

  /** Four bytes encode as their four digit pairs. */
  lemma HexEncodeFour(a: Byte, b: Byte, c: Byte, d: Byte)
    ensures HexEncode([a, b, c, d]) == HexByte(a) + HexByte(b) + HexByte(c) + HexByte(d)
  {
    assert HexEncode([d]) == HexByte(d) by { assert [d][1..] == []; }
    assert HexEncode([c, d]) == HexByte(c) + HexByte(d) by { assert [c, d][1..] == [d]; }
    assert HexEncode([b, c, d]) == HexByte(b) + HexByte(c) + HexByte(d) by { assert [b, c, d][1..] == [c, d]; }
    assert [a, b, c, d][1..] == [b, c, d];
  }

  /** The four quarters of the sample token below, each kept in a proof of
      its own so that no single proof has to evaluate all sixteen bytes. */
  lemma SampleQuarter0()
    ensures HexEncode([48, 49, 50, 51]) == "30313233"
  {
    HexEncodeFour(48, 49, 50, 51);
  }

  lemma SampleQuarter1()
    ensures HexEncode([52, 53, 54, 55]) == "34353637"
  {
    HexEncodeFour(52, 53, 54, 55);
  }

  lemma SampleQuarter2()
    ensures HexEncode([56, 57, 97, 98]) == "38396162"
  {
    HexEncodeFour(56, 57, 97, 98);
  }

  lemma SampleQuarter3()
    ensures HexEncode([99, 100, 101, 102]) == "63646566"
  {
    HexEncodeFour(99, 100, 101, 102);
  }

  /** The token "0123456789abcdef" (as UTF-8 bytes) encodes as
      "30313233343536373839616263646566". */
  lemma SampleDeviceToken()
    ensures HexEncode([48, 49, 50, 51] + [52, 53, 54, 55] + [56, 57, 97, 98] + [99, 100, 101, 102])
            == "30313233" + "34353637" + "38396162" + "63646566"
  {
    var q0: seq<Byte>, q1: seq<Byte>, q2: seq<Byte>, q3: seq<Byte> :=
      [48, 49, 50, 51], [52, 53, 54, 55], [56, 57, 97, 98], [99, 100, 101, 102];
    SampleQuarter0();
    SampleQuarter1();
    SampleQuarter2();
    SampleQuarter3();
    HexEncodeFourPieces(q0, q1, q2, q3);
  }

  /** After 505 records are staged into an empty unidentified queue it
      holds the last 500 of them, the 6th to the 505th, in order. */
  lemma StagingKeepsNewest(records: seq<Properties>)
    requires |records| == 505
    ensures Queues.AppendAll([], records, UnidentifiedQueueCapacity) == records[5..]
    ensures |records[5..]| == UnidentifiedQueueCapacity
  {
    Queues.AppendAllKeepsNewest([], records, UnidentifiedQueueCapacity);
    assert [] + records == records;
  }

  class People {
    var ignoreTime: Option<bool>
    const apiToken: string
    var unidentifiedQueue: Queue
    var automaticPeopleProperties: Properties
    var distinctId: Option<string>
    /** The identified people queue, which the instance reads and clears; it
        is declared here because the instance refers to it as a field of
        `people`. */
    var peopleQueue: Queue

    /** The unidentified queue respects its bound. */
    ghost predicate Valid()
      reads this
    {
      |unidentifiedQueue| <= UnidentifiedQueueCapacity
    }

    /** The outcome of routing the record for `action` and `properties`,
        starting from the unidentified queue `staged`. */
    ghost predicate Routed(staged: Queue, action: string, properties: Properties, now: int,
                           delegated: Option<Properties>)
      reads this
    {
      var r := PeopleRecord(apiToken, now, ignoreTime, action, properties, automaticPeopleProperties);
      match distinctId
      case Some(id) =>
        delegated == Some(r["$distinct_id" := Str(id)]) && unidentifiedQueue == staged
      case None =>
        delegated == None && unidentifiedQueue == Queues.BoundedAppend(staged, r, UnidentifiedQueueCapacity)
    }

    /** The automatic properties are collected from the device by the
        caller. */
    constructor (apiToken: string, automaticPeopleProperties: Properties)
      ensures this.apiToken == apiToken && this.automaticPeopleProperties == automaticPeopleProperties
      ensures unidentifiedQueue == [] && peopleQueue == []
      ensures distinctId == None && ignoreTime == None
      ensures Valid()
    {
      this.apiToken := apiToken;
      this.automaticPeopleProperties := automaticPeopleProperties;
      unidentifiedQueue := [];
      peopleQueue := [];
      distinctId := None;
      ignoreTime := None;
    }

    /** Build the record and route it to the delegate or the staging
        queue. */
    method AddPeopleRecordToQueueWithAction(action: string, properties: Properties, now: int)
      returns (delegated: Option<Properties>)
      modifies this`unidentifiedQueue
      ensures old(Valid()) ==> Valid()
      ensures Routed(old(unidentifiedQueue), action, properties, now, delegated)
      ensures delegated.Some? ==> "$distinct_id" in delegated.value
    {
      var r := PeopleRecord(apiToken, now, ignoreTime, action, properties, automaticPeopleProperties);
      if distinctId.Some? {
        r := r["$distinct_id" := Str(distinctId.value)];
        delegated := Some(r);
      } else {
        unidentifiedQueue := unidentifiedQueue + [r];
        if |unidentifiedQueue| > UnidentifiedQueueCapacity {
          unidentifiedQueue := unidentifiedQueue[1..];
        }
        delegated := None;
      }
    }

    /** `$union` of the hex-encoded token into `$ios_devices`. */
    method AddPushDeviceToken(deviceToken: seq<Byte>, now: int) returns (delegated: Option<Properties>)
      modifies this`unidentifiedQueue
      ensures old(Valid()) ==> Valid()
      ensures Routed(old(unidentifiedQueue), "$union",
                     map["$ios_devices" := Array([Str(HexEncode(deviceToken))])], now, delegated)
    {
      var tokenString := PushTokenString(deviceToken);
      var properties := map["$ios_devices" := Array([Str(tokenString)])];
      delegated := AddPeopleRecordToQueueWithAction("$union", properties, now);
    }

    /** The loop that accumulates the token string two digits at a time. */
    static method PushTokenString(deviceToken: seq<Byte>) returns (tokenString: string)
      ensures tokenString == HexEncode(deviceToken)
    {
      tokenString := "";
      for i := 0 to |deviceToken|
        invariant tokenString == HexEncode(deviceToken[..i])
      {
        HexEncodeSnoc(deviceToken[..i], deviceToken[i]);
        assert deviceToken[..i + 1] == deviceToken[..i] + [deviceToken[i]];
        tokenString := tokenString + HexByte(deviceToken[i]);
      }
      assert deviceToken[..|deviceToken|] == deviceToken;
    }

    /** `$unset` of `$ios_devices`. */
    method RemovePushDeviceToken(now: int) returns (delegated: Option<Properties>)
      modifies this`unidentifiedQueue
      ensures old(Valid()) ==> Valid()
      ensures Routed(old(unidentifiedQueue), "$unset",
                     map["$properties" := Array([Str("$ios_devices")])], now, delegated)
    {
      delegated := AddPeopleRecordToQueueWithAction("$unset", map["$properties" := Array([Str("$ios_devices")])], now);
    }

    /** `set(properties:)`: a missing map records nothing. */
    method Set(properties: Option<Properties>, now: int) returns (delegated: Option<Properties>)
      modifies this`unidentifiedQueue
      ensures old(Valid()) ==> Valid()
      ensures properties.None? ==> delegated == None && unidentifiedQueue == old(unidentifiedQueue)
      ensures properties.Some? ==> Routed(old(unidentifiedQueue), "$set", properties.value, now, delegated)
    {
      if properties.None? {
        return None;
      }
      delegated := AddPeopleRecordToQueueWithAction("$set", properties.value, now);
    }

    /** `set(property:to:)`: sets the single pair. */
    method SetProperty(property: Option<string>, to: Option<Value>, now: int) returns (delegated: Option<Properties>)
      modifies this`unidentifiedQueue
      ensures old(Valid()) ==> Valid()
      ensures property.None? || to.None? ==> delegated == None && unidentifiedQueue == old(unidentifiedQueue)
      ensures property.Some? && to.Some? ==>
        Routed(old(unidentifiedQueue), "$set", map[property.value := to.value], now, delegated)
    {
      if property.None? || to.None? {
        return None;
      }
      delegated := Set(Some(map[property.value := to.value]), now);
    }

    method SetOnce(properties: Option<Properties>, now: int) returns (delegated: Option<Properties>)
      modifies this`unidentifiedQueue
      ensures old(Valid()) ==> Valid()
      ensures properties.None? ==> delegated == None && unidentifiedQueue == old(unidentifiedQueue)
      ensures properties.Some? ==> Routed(old(unidentifiedQueue), "$set_once", properties.value, now, delegated)
    {
      if properties.None? {
        return None;
      }
      delegated := AddPeopleRecordToQueueWithAction("$set_once", properties.value, now);
    }

    /** `unset`: the names travel under `$properties`. */
    method Unset(properties: Option<seq<string>>, now: int) returns (delegated: Option<Properties>)
      modifies this`unidentifiedQueue
      ensures old(Valid()) ==> Valid()
      ensures properties.None? ==> delegated == None && unidentifiedQueue == old(unidentifiedQueue)
      ensures properties.Some? ==>
        Routed(old(unidentifiedQueue), "$unset", map["$properties" := Array(Strings(properties.value))], now, delegated)
    {
      if properties.None? {
        return None;
      }
      delegated := AddPeopleRecordToQueueWithAction("$unset", map["$properties" := Array(Strings(properties.value))], now);
    }

    /** `increment(properties:)`: records nothing when any value is not a
        number. */
    method Increment(properties: Option<Properties>, now: int) returns (delegated: Option<Properties>)
      modifies this`unidentifiedQueue
      ensures old(Valid()) ==> Valid()
      ensures properties.None? || !AllNumbers(properties.value) ==>
        delegated == None && unidentifiedQueue == old(unidentifiedQueue)
      ensures properties.Some? && AllNumbers(properties.value) ==>
        Routed(old(unidentifiedQueue), "$add", properties.value, now, delegated)
    {
      if properties.None? {
        return None;
      }
      if !AllNumbers(properties.value) {
        return None;
      }
      delegated := AddPeopleRecordToQueueWithAction("$add", properties.value, now);
    }

    /** `increment(property:by:)` */
    method IncrementBy(property: Option<string>, amount: Option<int>, now: int) returns (delegated: Option<Properties>)
      modifies this`unidentifiedQueue
      ensures old(Valid()) ==> Valid()
      ensures property.None? || amount.None? ==> delegated == None && unidentifiedQueue == old(unidentifiedQueue)
      ensures property.Some? && amount.Some? ==>
        Routed(old(unidentifiedQueue), "$add", map[property.value := Int(amount.value)], now, delegated)
    {
      if property.None? || amount.None? {
        return None;
      }
      delegated := Increment(Some(map[property.value := Int(amount.value)]), now);
    }

    method Append(properties: Option<Properties>, now: int) returns (delegated: Option<Properties>)
      modifies this`unidentifiedQueue
      ensures old(Valid()) ==> Valid()
      ensures properties.None? ==> delegated == None && unidentifiedQueue == old(unidentifiedQueue)
      ensures properties.Some? ==> Routed(old(unidentifiedQueue), "$append", properties.value, now, delegated)
    {
      if properties.None? {
        return None;
      }
      delegated := AddPeopleRecordToQueueWithAction("$append", properties.value, now);
    }

    /** `union`: records nothing when any value is not an array. */
    method Union(properties: Option<Properties>, now: int) returns (delegated: Option<Properties>)
      modifies this`unidentifiedQueue
      ensures old(Valid()) ==> Valid()
      ensures properties.None? || !AllArrays(properties.value) ==>
        delegated == None && unidentifiedQueue == old(unidentifiedQueue)
      ensures properties.Some? && AllArrays(properties.value) ==>
        Routed(old(unidentifiedQueue), "$union", properties.value, now, delegated)
    {
      if properties.None? {
        return None;
      }
      if !AllArrays(properties.value) {
        return None;
      }
      delegated := AddPeopleRecordToQueueWithAction("$union", properties.value, now);
    }

    method Merge(properties: Option<Properties>, now: int) returns (delegated: Option<Properties>)
      modifies this`unidentifiedQueue
      ensures old(Valid()) ==> Valid()
      ensures properties.None? ==> delegated == None && unidentifiedQueue == old(unidentifiedQueue)
      ensures properties.Some? ==> Routed(old(unidentifiedQueue), "$merge", properties.value, now, delegated)
    {
      if properties.None? {
        return None;
      }
      delegated := AddPeopleRecordToQueueWithAction("$merge", properties.value, now);
    }

    /** `trackCharge`: `$append` of the transaction to `$transactions`; a
        missing amount records nothing. */
    method TrackCharge(amount: Option<real>, properties: Option<Properties>, now: int) returns (delegated: Option<Properties>)
      modifies this`unidentifiedQueue
      ensures old(Valid()) ==> Valid()
      ensures amount.None? ==> delegated == None && unidentifiedQueue == old(unidentifiedQueue)
      ensures amount.Some? ==>
        Routed(old(unidentifiedQueue), "$append",
               map["$transactions" := Dict(ChargeTransaction(amount.value, now, properties))], now, delegated)
    {
      if amount.None? {
        return None;
      }
      var transaction := ChargeTransaction(amount.value, now, properties);
      delegated := Append(Some(map["$transactions" := Dict(transaction)]), now);
    }

    /** `clearCharges`: `$set` of an empty `$transactions` array. */
    method ClearCharges(now: int) returns (delegated: Option<Properties>)
      modifies this`unidentifiedQueue
      ensures old(Valid()) ==> Valid()
      ensures Routed(old(unidentifiedQueue), "$set", map["$transactions" := Array([])], now, delegated)
    {
      delegated := Set(Some(map["$transactions" := Array([])]), now);
    }

    /** `deleteUser`: `$delete` with an empty map. */
    method DeleteUser(now: int) returns (delegated: Option<Properties>)
      modifies this`unidentifiedQueue
      ensures old(Valid()) ==> Valid()
      ensures Routed(old(unidentifiedQueue), "$delete", map[], now, delegated)
    {
      delegated := AddPeopleRecordToQueueWithAction("$delete", map[], now);
    }
  }

  /** Property names as string values. */
  function Strings(names: seq<string>): (vs: seq<Value>)
    ensures |vs| == |names| && forall i :: 0 <= i < |names| ==> vs[i] == Str(names[i])
  {
    if names == [] then [] else [Str(names[0])] + Strings(names[1..])
  }
}
