/** Log options as a query: the API server decodes one from the client and encodes another
    for the kubelet, which decodes it again. */
module LogOptions {
  import opened Options
  import opened Decimal

  type Int64 = n: int | MIN_INT64 <= n <= MAX_INT64

  // A query, from key to values. A key without values reads as an empty one.
  type Query = map<string, seq<string>>

  function First(q: Query, k: string): string {
    if k in q && q[k] != [] then q[k][0] else ""
  }

  // What the kubelet understands.
  datatype LogOptions = LogOptions(
    container: string, follow: bool, timestamps: bool,
    tailLines: Option<Int64>, sinceSeconds: Option<Int64>, limitBytes: Option<Int64>)

  const NO_OPTIONS := LogOptions("", false, false, None, None, None)

  // The API server's options, an object that its decoder fills in.
  class PodLogOptions {
    var container: string
    var follow: bool
    var previous: bool
    var timestamps: bool
    var sinceSeconds: Option<Int64>
    var tailLines: Option<Int64>
    var limitBytes: Option<Int64>

    constructor ()
      ensures Shared() == NO_OPTIONS && !previous
    {
      container, follow, previous, timestamps := "", false, false, false;
      sinceSeconds, tailLines, limitBytes := None, None, None;
    }

    // The part the kubelet understands too.
    function Shared(): LogOptions
      reads this
    {
      LogOptions(container, follow, timestamps, tailLines, sinceSeconds, limitBytes)
    }
  }

  // strconv.ParseBool.
  function ParseBool(s: string): Option<bool> {
    if s in ["1", "t", "T", "TRUE", "true", "True"] then Some(true)
    else if s in ["0", "f", "F", "FALSE", "false", "False"] then Some(false)
    else None
  }

  // strconv.ParseInt(s, 10, 64).
  function ParseInt64(s: string): Option<Int64> {
    ParseInt(s)
  }

  // --- What decoding means ---

  predicate BoolOk(q: Query, k: string) {
    First(q, k) == "" || ParseBool(First(q, k)).Some?
  }

  predicate IntOk(q: Query, k: string) {
    First(q, k) == "" || ParseInt64(First(q, k)).Some?
  }

  // An absent or empty value leaves the field as it was.
  function BoolIn(q: Query, k: string, was: bool): bool {
    if First(q, k) != "" && ParseBool(First(q, k)).Some? then ParseBool(First(q, k)).value else was
  }

  function IntIn(q: Query, k: string, was: Option<Int64>): Option<Int64> {
    if First(q, k) != "" then ParseInt64(First(q, k)) else was
  }

  function TextIn(q: Query, k: string, was: string): string {
    if First(q, k) != "" then First(q, k) else was
  }

  function Decoded(q: Query, was: LogOptions): LogOptions {
    LogOptions(
      TextIn(q, "container", was.container), BoolIn(q, "follow", was.follow), BoolIn(q, "timestamps", was.timestamps),
      IntIn(q, "tailLines", was.tailLines), IntIn(q, "sinceSeconds", was.sinceSeconds), IntIn(q, "limitBytes", was.limitBytes))
  }

  predicate SharedOk(q: Query) {
    && BoolOk(q, "follow") && BoolOk(q, "timestamps")
    && IntOk(q, "tailLines") && IntOk(q, "sinceSeconds") && IntOk(q, "limitBytes")
  }

  // The key a decoder complains of: the first bad one in the order in which it looks.
  function BadParsed(q: Query): Option<string> {
    if !BoolOk(q, "follow") then Some("follow")
    else if !BoolOk(q, "timestamps") then Some("timestamps")
    else if !IntOk(q, "tailLines") then Some("tailLines")
    else if !IntOk(q, "sinceSeconds") then Some("sinceSeconds")
    else if !IntOk(q, "limitBytes") then Some("limitBytes")
    else None
  }

  function BadConverted(q: Query): Option<string> {
    if !BoolOk(q, "follow") then Some("follow")
    else if !BoolOk(q, "previous") then Some("previous")
    else if !BoolOk(q, "timestamps") then Some("timestamps")
    else if !IntOk(q, "sinceSeconds") then Some("sinceSeconds")
    else if !IntOk(q, "tailLines") then Some("tailLines")
    else if !IntOk(q, "limitBytes") then Some("limitBytes")
    else None
  }

  // Flags have twelve spellings, numbers are decimal, and an absent value changes nothing.
  lemma DecodedReads(q: Query, was: LogOptions)
    requires SharedOk(q)
    ensures Decoded(q, was) == LogOptions(
              if First(q, "container") == "" then was.container else First(q, "container"),
              if First(q, "follow") == "" then was.follow else First(q, "follow") in ["1", "t", "T", "TRUE", "true", "True"],
              if First(q, "timestamps") == "" then was.timestamps else First(q, "timestamps") in ["1", "t", "T", "TRUE", "true", "True"],
              if First(q, "tailLines") == "" then was.tailLines else ParseInt(First(q, "tailLines")),
              if First(q, "sinceSeconds") == "" then was.sinceSeconds else ParseInt(First(q, "sinceSeconds")),
              if First(q, "limitBytes") == "" then was.limitBytes else ParseInt(First(q, "limitBytes")))
  {
  }

  // The texts that are a flag or a number. Of several values the first one counts.
  lemma BadTexts(q: Query, k: string)
    ensures First(q, k) == if k in q && |q[k]| > 0 then q[k][0] else ""
    ensures BoolOk(q, k) <==> First(q, k) in [""] + ["1", "t", "T", "TRUE", "true", "True"] + ["0", "f", "F", "FALSE", "false", "False"]
    ensures IntOk(q, k) <==> First(q, k) == "" || ParseInt(First(q, k)).Some?
  {
  }

  // The decoders look at the numbers in different orders.
  lemma Blamed(q: Query)
    requires BoolOk(q, "follow") && BoolOk(q, "timestamps")
    ensures !IntOk(q, "tailLines") ==> BadParsed(q) == Some("tailLines")
    ensures IntOk(q, "tailLines") && !IntOk(q, "sinceSeconds") ==> BadParsed(q) == Some("sinceSeconds")
    ensures !BoolOk(q, "previous") ==> BadConverted(q) == Some("previous")
    ensures BoolOk(q, "previous") && !IntOk(q, "sinceSeconds") ==> BadConverted(q) == Some("sinceSeconds")
    ensures BoolOk(q, "previous") && IntOk(q, "sinceSeconds") && !IntOk(q, "tailLines") ==> BadConverted(q) == Some("tailLines")
    ensures IntOk(q, "tailLines") && IntOk(q, "sinceSeconds") && !IntOk(q, "limitBytes") ==>
              BadParsed(q) == Some("limitBytes") && (BoolOk(q, "previous") ==> BadConverted(q) == Some("limitBytes"))
  {
  }

  // A bad flag is found before a bad number.
  lemma FlagsBlamed(q: Query)
    ensures !BoolOk(q, "follow") ==> BadParsed(q) == BadConverted(q) == Some("follow")
    ensures BoolOk(q, "follow") && !BoolOk(q, "timestamps") ==>
              BadParsed(q) == Some("timestamps") && (BoolOk(q, "previous") ==> BadConverted(q) == Some("timestamps"))
  {
  }

  // --- The kubelet's decoder ---

  method ParseLogOptions(q: Query) returns (r: Result<LogOptions, string>)
    ensures r.Ok? <==> SharedOk(q)
    ensures r.Ok? ==> r.value == Decoded(q, NO_OPTIONS)
    ensures r.Err? ==> BadParsed(q) == Some(r.error)
  {
    var out := NO_OPTIONS;
    var v := First(q, "container");
    if v != "" {
      out := out.(container := v);
    }
    v := First(q, "follow");
    if v != "" {
      var b := ParseBool(v);
      if b.None? {
        return Err("follow");
      }
      out := out.(follow := b.value);
    }
    v := First(q, "timestamps");
    if v != "" {
      var b := ParseBool(v);
      if b.None? {
        return Err("timestamps");
      }
      out := out.(timestamps := b.value);
    }
    v := First(q, "tailLines");
    if v != "" {
      var n := ParseInt64(v);
      if n.None? {
        return Err("tailLines");
      }
      out := out.(tailLines := n);
    }
    v := First(q, "sinceSeconds");
    if v != "" {
      var n := ParseInt64(v);
      if n.None? {
        return Err("sinceSeconds");
      }
      out := out.(sinceSeconds := n);
    }
    v := First(q, "limitBytes");
    if v != "" {
      var n := ParseInt64(v);
      if n.None? {
        return Err("limitBytes");
      }
      out := out.(limitBytes := n);
    }
    return Ok(out);
  }

  // --- The API server's decoder ---

  method ParseBoolKey(q: Query, k: string, was: bool) returns (r: Result<bool, string>)
    ensures r == if BoolOk(q, k) then Ok(BoolIn(q, k, was)) else Err(k)
  {
    var v := First(q, k);
    if v != "" {
      var b := ParseBool(v);
      if b.None? {
        return Err(k);
      }
      return Ok(b.value);
    }
    return Ok(was);
  }

  method ParseIntKey(q: Query, k: string, was: Option<Int64>) returns (r: Result<Option<Int64>, string>)
    ensures r == if IntOk(q, k) then Ok(IntIn(q, k, was)) else Err(k)
  {
    var v := First(q, k);
    if v != "" {
      var n := ParseInt64(v);
      if n.None? {
        return Err(k);
      }
      return Ok(n);
    }
    return Ok(was);
  }

  method ConvertURLValuesToPodLogOptions(q: Query, out: PodLogOptions) returns (bad: Option<string>)
    modifies out
    ensures bad.None? <==> SharedOk(q) && BoolOk(q, "previous")
    ensures bad.None? ==> out.Shared() == Decoded(q, old(out.Shared())) && out.previous == BoolIn(q, "previous", old(out.previous))
    ensures bad == BadConverted(q)
  {
    var v := First(q, "container");
    if v != "" {
      out.container := v;
    }
    var b := ParseBoolKey(q, "follow", out.follow);
    if b.Err? {
      return Some(b.error);
    }
    out.follow := b.value;
    b := ParseBoolKey(q, "previous", out.previous);
    if b.Err? {
      return Some(b.error);
    }
    out.previous := b.value;
    b := ParseBoolKey(q, "timestamps", out.timestamps);
    if b.Err? {
      return Some(b.error);
    }
    out.timestamps := b.value;
    var n := ParseIntKey(q, "sinceSeconds", out.sinceSeconds);
    if n.Err? {
      return Some(n.error);
    }
    out.sinceSeconds := n.value;
    n := ParseIntKey(q, "tailLines", out.tailLines);
    if n.Err? {
      return Some(n.error);
    }
    out.tailLines := n.value;
    n := ParseIntKey(q, "limitBytes", out.limitBytes);
    if n.Err? {
      return Some(n.error);
    }
    out.limitBytes := n.value;
    return None;
  }

  // --- The API server's encoder ---

  function Printed(n: Option<Int64>): string {
    if n.Some? then FormatInt(n.value) else ""
  }

  const KEYS := ["container", "follow", "timestamps", "tailLines", "sinceSeconds", "limitBytes", "previous"]

  function Values(q: Query, keys: seq<string>): (vs: seq<string>)
    ensures |vs| == |keys|
  {
    if keys == [] then [] else Values(q, keys[..|keys| - 1]) + [First(q, keys[|keys| - 1])]
  }

  lemma {:induction false} ValueAt(q: Query, keys: seq<string>, i: nat)
    requires i < |keys|
    ensures Values(q, keys)[i] == First(q, keys[i])
    decreases |keys|
  {
    if i < |keys| - 1 {
      ValueAt(q, keys[..|keys| - 1], i);
    }
  }

  // A query that says of each option what it is: nothing for a false flag, an empty name or
  // an absent number, nothing for "previous", and nothing without a value.
  predicate Encodes(o: LogOptions, q: Query) {
    Full(q, KEYS) && Values(q, KEYS) == ValuesOf(o)
  }

  function ValuesOf(o: LogOptions): seq<string> {
    [o.container, FlagText(o.follow), FlagText(o.timestamps), Printed(o.tailLines), Printed(o.sinceSeconds),
     Printed(o.limitBytes), ""]
  }

  function FlagText(flag: bool): string {
    if flag then "true" else ""
  }

  // Every key is one of those, and has one value, which is not empty.
  predicate Full(q: Query, keys: seq<string>) {
    forall k :: k in q ==> k in keys && |q[k]| == 1 && q[k][0] != ""
  }

  predicate Distinct(keys: seq<string>) {
    keys != [] ==> keys[|keys| - 1] !in keys[..|keys| - 1] && Distinct(keys[..|keys| - 1])
  }

  lemma {:induction false} DistinctAt(keys: seq<string>, i: nat, j: nat)
    requires Distinct(keys) && i < j < |keys|
    ensures keys[i] != keys[j]
    decreases |keys|
  {
    if j < |keys| - 1 {
      DistinctAt(keys[..|keys| - 1], i, j);
    } else {
      assert keys[..j][i] == keys[i];
    }
  }

  // The query with one more value, unless that is empty.
  function With(q: Query, k: string, v: string): Query {
    if v == "" then q else q[k := [v]]
  }

  lemma WithValues(q: Query, keys: seq<string>, i: nat, v: string)
    requires Distinct(keys) && i < |keys| && Values(q, keys)[i] == ""
    ensures Values(With(q, keys[i], v), keys) == Values(q, keys)[i := v]
    ensures Full(q, keys) ==> Full(With(q, keys[i], v), keys)
  {
    var r := With(q, keys[i], v);
    ValueAt(q, keys, i);
    forall j | 0 <= j < |keys| ensures Values(r, keys)[j] == Values(q, keys)[i := v][j] {
      ValueAt(q, keys, j);
      ValueAt(r, keys, j);
      if j != i {
        DistinctAt(keys, if i < j then i else j, if i < j then j else i);
      }
    }
  }

  // url.Values.Set, behind the checks for what is left out.
  method SetText(q: Query, keys: seq<string>, i: nat, text: string) returns (r: Query)
    requires Distinct(keys) && i < |keys| && Values(q, keys)[i] == "" && Full(q, keys)
    ensures Full(r, keys) && Values(r, keys) == Values(q, keys)[i := text]
  {
    WithValues(q, keys, i, text);
    r := q;
    if text != "" {
      r := r[keys[i] := [text]];
    }
  }

  method SetFlag(q: Query, keys: seq<string>, i: nat, flag: bool) returns (r: Query)
    requires Distinct(keys) && i < |keys| && Values(q, keys)[i] == "" && Full(q, keys)
    ensures Full(r, keys) && Values(r, keys) == Values(q, keys)[i := FlagText(flag)]
  {
    WithValues(q, keys, i, FlagText(flag));
    r := q;
    if flag {
      r := r[keys[i] := ["true"]];
    }
  }

  method SetNumber(q: Query, keys: seq<string>, i: nat, n: Option<Int64>) returns (r: Query)
    requires Distinct(keys) && i < |keys| && Values(q, keys)[i] == "" && Full(q, keys)
    ensures Full(r, keys) && Values(r, keys) == Values(q, keys)[i := Printed(n)]
  {
    WithValues(q, keys, i, Printed(n));
    r := q;
    if n.Some? {
      IntRoundTrip(n.value);
      r := r[keys[i] := [FormatInt(n.value)]];
    }
  }

  lemma NoValues(keys: seq<string>, e: string)
    requires |keys| == 7 && e == ""
    ensures Values(map[], keys) == [e, e, e, e, e, e, e]
  {
    forall i | 0 <= i < 7 ensures Values(map[], keys)[i] == e {
      ValueAt(map[], keys, i);
    }
  }

  // The first half of the encoder, and the second.
  method EncodeFlags(keys: seq<string>, o: LogOptions) returns (v: Query)
    requires Distinct(keys) && |keys| == 7
    ensures Full(v, keys) && Values(v, keys) == [o.container, FlagText(o.follow), FlagText(o.timestamps), "", "", "", ""]
  {
    v := map[];
    NoValues(keys, "");
    v := SetText(v, keys, 0, o.container);
    v := SetFlag(v, keys, 1, o.follow);
    v := SetFlag(v, keys, 2, o.timestamps);
  }

  method EncodeNumbers(keys: seq<string>, o: LogOptions, flags: Query) returns (v: Query)
    requires Distinct(keys) && |keys| == 7
    requires Full(flags, keys)
    requires Values(flags, keys) == [o.container, FlagText(o.follow), FlagText(o.timestamps), "", "", "", ""]
    ensures Full(v, keys) && Values(v, keys) == ValuesOf(o)
  {
    v := SetNumber(flags, keys, 3, o.tailLines);
    v := SetNumber(v, keys, 4, o.sinceSeconds);
    v := SetNumber(v, keys, 5, o.limitBytes);
  }

  lemma KeysDistinct()
    ensures Distinct(KEYS)
  {
    assert |KEYS[0]| == 9 && |KEYS[1]| == 6 && |KEYS[2]| == 10 && |KEYS[3]| == 9 && |KEYS[4]| == 12 && |KEYS[5]| == 10;
    assert KEYS[0][0] == 'c' && KEYS[2][0] == 't' && KEYS[3][0] == 't' && KEYS[5][0] == 'l';
    DistinctWhenPairwise(KEYS);
  }

  lemma {:induction false} DistinctWhenPairwise(keys: seq<string>)
    requires forall i, j :: 0 <= i < j < |keys| ==> keys[i] != keys[j]
    ensures Distinct(keys)
  {
    if keys != [] {
      DistinctWhenPairwise(keys[..|keys| - 1]);
    }
  }

  method EncodeLogQuery(o: PodLogOptions?) returns (v: Query)
    ensures o == null ==> v == map[]
    ensures o != null ==> Encodes(o.Shared(), v)
  {
    if o == null {
      return map[];
    }
    KeysDistinct();
    v := EncodeFlags(KEYS, o.Shared());
    v := EncodeNumbers(KEYS, o.Shared(), v);
  }

  // --- Main results ---

  lemma PrintedDecodes(q: Query, k: string, n: Option<Int64>)
    requires First(q, k) == Printed(n)
    ensures IntOk(q, k) && IntIn(q, k, None) == n
  {
    if n.Some? {
      IntRoundTrip(n.value);
    }
  }

  lemma Spelled(q: Query, o: LogOptions)
    requires Encodes(o, q)
    ensures First(q, "container") == o.container
    ensures First(q, "follow") == FlagText(o.follow) && First(q, "timestamps") == FlagText(o.timestamps)
    ensures First(q, "tailLines") == Printed(o.tailLines) && First(q, "sinceSeconds") == Printed(o.sinceSeconds)
    ensures First(q, "limitBytes") == Printed(o.limitBytes)
    ensures o.follow ==> First(q, "follow") == "true"
    ensures o.tailLines.Some? ==> First(q, "tailLines") == FormatInt(o.tailLines.value)
  {
    ValueAt(q, KEYS, 0);
    ValueAt(q, KEYS, 1);
    ValueAt(q, KEYS, 2);
    ValueAt(q, KEYS, 3);
    ValueAt(q, KEYS, 4);
    ValueAt(q, KEYS, 5);
  }

  // Decoding undoes encoding, whatever the options are: absent, zero, negative or extreme.
  lemma RoundTrip(o: LogOptions, q: Query)
    requires Encodes(o, q)
    ensures SharedOk(q) && Decoded(q, NO_OPTIONS) == o
  {
    Spelled(q, o);
    PrintedDecodes(q, "tailLines", o.tailLines);
    PrintedDecodes(q, "sinceSeconds", o.sinceSeconds);
    PrintedDecodes(q, "limitBytes", o.limitBytes);
    assert ParseBool("true") == Some(true);
  }

  // The decoders accept the same queries exactly but for a bad "previous", which only the
  // API server reads.
  lemma DecodersAgreeIff(q: Query)
    ensures (BadParsed(q).None? <==> BadConverted(q).None?) <==> (BoolOk(q, "previous") || !SharedOk(q))
    ensures BadParsed(q).None? <==> SharedOk(q)
  {
  }

  // Through the API server the kubelet gets the options the client asked for, as if it had
  // read the client's query itself. Only "previous" is lost.
  lemma ProxyIsTransparent(asked: Query, sent: Query)
    requires SharedOk(asked) && Encodes(Decoded(asked, NO_OPTIONS), sent)
    ensures SharedOk(sent) && Decoded(sent, NO_OPTIONS) == Decoded(asked, NO_OPTIONS)
    ensures First(sent, "previous") == ""
  {
    RoundTrip(Decoded(asked, NO_OPTIONS), sent);
    ValueAt(sent, KEYS, 6);
  }
}
