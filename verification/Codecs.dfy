/** The facts assumed of the JSON and ISO 8601 codecs can all be met at once: a codec
    that has them. Its texts only need to be right, not to look like JSON. */
module Codecs {
  import opened Collections
  import opened TaskMessages
  import opened Text
  import opened SseFrames

  // ---------- A prefix-free writing of JSON values ----------

  function WriteNumber(n: int): string
  {
    Decimal(n) + ";"
  }

  /** Characters as their codes, so that any text is written on one line. */
  function WriteText(s: string): string
  {
    if s == "" then "." else "," + WriteNumber(s[0] as int) + WriteText(s[1..])
  }

  ghost function Pick(keys: set<string>): string
    requires keys != {}
    ensures Pick(keys) in keys
  {
    var k :| k in keys;
    k
  }

  ghost function Write(j: Json): string
    decreases j, 1, 0
  {
    match j
    case JNull => "n"
    case JBool(b) => if b then "t" else "f"
    case JNumber(digits, exponent) => "#" + (WriteNumber(digits) + WriteNumber(exponent))
    case JString(s) => "s" + WriteText(s)
    case JArray(items) => "[" + WriteItems(j, 0)
    case JObject(fields) => "{" + WriteFields(j, fields.Keys)
  }

  ghost function WriteItems(j: Json, from: nat): string
    requires j.JArray? && from <= |j.items|
    decreases j, 0, |j.items| - from
  {
    if from == |j.items| then "]" else "," + (Write(j.items[from]) + WriteItems(j, from + 1))
  }

  ghost function WriteFields(j: Json, keys: set<string>): string
    requires j.JObject? && keys <= j.fields.Keys
    decreases j, 0, |keys|
  {
    if keys == {} then "}"
    else
      var k := Pick(keys);
      "," + (WriteText(k) + (Write(j.fields[k]) + WriteFields(j, keys - {k})))
  }

  // ---------- Different values are written differently ----------

  /** The first semicolon ends a number. */
  lemma {:induction false} NoSemicolon(n: nat)
    ensures ';' !in Digits(n)
  {
    if n >= 10 {
      NoSemicolon(n / 10);
    }
  }

  lemma DecimalPlain(n: int)
    ensures ';' !in Decimal(n)
  {
    NoSemicolon(if n < 0 then -n else n);
  }

  lemma SplitAtMark(a: string, x: string, b: string, y: string)
    requires ';' !in a && ';' !in b && a + ";" + x == b + ";" + y
    ensures a == b && x == y
  {
    var s := a + ";" + x;
    assert s[|a|] == ';' && s[|b|] == ';';
    assert forall i :: 0 <= i < |a| ==> s[i] == a[i] && a[i] in a;
    assert forall i :: 0 <= i < |b| ==> s[i] == b[i] && b[i] in b;
    assert |a| == |b|;
    assert a == s[..|a|] && b == s[..|b|];
    assert x == s[|a| + 1..] && y == s[|b| + 1..];
  }

  lemma NumbersApart(m: int, x: string, n: int, y: string)
    requires WriteNumber(m) + x == WriteNumber(n) + y
    ensures m == n && x == y
  {
    DecimalPlain(m);
    DecimalPlain(n);
    SplitAtMark(Decimal(m), x, Decimal(n), y);
    DecimalRead(m);
    DecimalRead(n);
  }

  lemma HeadsApart(c: string, x: string, d: string, y: string)
    requires |c| == |d| == 1 && c + x == d + y
    ensures c == d && x == y
  {
    assert c == (c + x)[..1] && d == (d + y)[..1];
    assert x == (c + x)[1..] && y == (d + y)[1..];
  }

  lemma Regroup(a: string, b: string, x: string)
    ensures (a + b) + x == a + (b + x)
  {}

  lemma {:induction false} TextsApart(s: string, x: string, t: string, y: string)
    requires WriteText(s) + x == WriteText(t) + y
    ensures s == t && x == y
    decreases |s|
  {
    TextHead(s, x);
    TextHead(t, y);
    if s == "" && t == "" {
      HeadsApart(".", x, ".", y);
    } else if s != "" && t != "" {
      var a, b := WriteText(s[1..]) + x, WriteText(t[1..]) + y;
      HeadsApart(",", WriteNumber(s[0] as int) + a, ",", WriteNumber(t[0] as int) + b);
      NumbersApart(s[0] as int, a, t[0] as int, b);
      TextsApart(s[1..], x, t[1..], y);
      assert s == [s[0]] + s[1..] && t == [t[0]] + t[1..];
    }
  }

  lemma {:induction false} TextHead(s: string, x: string)
    ensures WriteText(s) + x ==
            if s == "" then "." + x else "," + (WriteNumber(s[0] as int) + (WriteText(s[1..]) + x))
    ensures (WriteText(s) + x)[0] == if s == "" then '.' else ','
  {
    if s != "" {
      var n, rest := WriteNumber(s[0] as int), WriteText(s[1..]);
      Regroup("," + n, rest, x);
      Regroup(",", n, rest + x);
    }
  }

  lemma {:induction false} WriteHead(j: Json, x: string)
    ensures Write(j) != "" && (Write(j) + x)[0] == Write(j)[0]
  {}

  lemma {:induction false} WritesApart(a: Json, x: string, b: Json, y: string)
    requires Write(a) + x == Write(b) + y
    ensures a == b && x == y
    decreases a, 1, 0
  {
    WriteHead(a, x);
    WriteHead(b, y);
    match a {
      case JNull => HeadsApart("n", x, "n", y);
      case JBool(v) => HeadsApart(Write(a), x, Write(b), y);
      case JNumber(digits, exponent) => NumberBodies(a, x, b, y);
      case JString(s) =>
        Regroup("s", WriteText(s), x);
        Regroup("s", WriteText(b.s), y);
        HeadsApart("s", WriteText(s) + x, "s", WriteText(b.s) + y);
        TextsApart(s, x, b.s, y);
      case JArray(items) =>
        Regroup("[", WriteItems(a, 0), x);
        Regroup("[", WriteItems(b, 0), y);
        HeadsApart("[", WriteItems(a, 0) + x, "[", WriteItems(b, 0) + y);
        ItemsApart(a, 0, x, b, 0, y);
        assert items == a.items[0..] && b.items == b.items[0..];
      case JObject(fields) =>
        Regroup("{", WriteFields(a, a.fields.Keys), x);
        Regroup("{", WriteFields(b, b.fields.Keys), y);
        HeadsApart("{", WriteFields(a, a.fields.Keys) + x, "{", WriteFields(b, b.fields.Keys) + y);
        FieldsApart(a, a.fields.Keys, x, b, b.fields.Keys, y);
        assert a.fields == b.fields;
    }
  }

  lemma {:induction false} NumberBody(j: Json, x: string)
    requires j.JNumber?
    ensures Write(j) + x == "#" + (WriteNumber(j.digits) + (WriteNumber(j.exponent) + x))
  {
    Regroup("#", WriteNumber(j.digits) + WriteNumber(j.exponent), x);
    Regroup(WriteNumber(j.digits), WriteNumber(j.exponent), x);
  }

  lemma {:induction false} NumberBodies(a: Json, x: string, b: Json, y: string)
    requires a.JNumber? && b.JNumber? && Write(a) + x == Write(b) + y
    ensures a == b && x == y
  {
    var m, n := WriteNumber(a.exponent) + x, WriteNumber(b.exponent) + y;
    NumberBody(a, x);
    NumberBody(b, y);
    HeadsApart("#", WriteNumber(a.digits) + m, "#", WriteNumber(b.digits) + n);
    NumbersApart(a.digits, m, b.digits, n);
    NumbersApart(a.exponent, x, b.exponent, y);
  }

  lemma {:induction false} ItemsHead(j: Json, from: nat, x: string)
    requires j.JArray? && from <= |j.items|
    ensures WriteItems(j, from) + x ==
            if from == |j.items| then "]" + x else "," + (Write(j.items[from]) + (WriteItems(j, from + 1) + x))
    ensures (WriteItems(j, from) + x)[0] == if from == |j.items| then ']' else ','
  {}

  lemma {:induction false} ItemsApart(a: Json, i: nat, x: string, b: Json, k: nat, y: string)
    requires a.JArray? && b.JArray? && i <= |a.items| && k <= |b.items| && WriteItems(a, i) + x == WriteItems(b, k) + y
    ensures a.items[i..] == b.items[k..] && x == y
    decreases a, 0, |a.items| - i
  {
    ItemsHead(a, i, x);
    ItemsHead(b, k, y);
    if i < |a.items| && k < |b.items| {
      var p, q := WriteItems(a, i + 1) + x, WriteItems(b, k + 1) + y;
      HeadsApart(",", Write(a.items[i]) + p, ",", Write(b.items[k]) + q);
      WritesApart(a.items[i], p, b.items[k], q);
      ItemsApart(a, i + 1, x, b, k + 1, y);
      assert a.items[i..] == [a.items[i]] + a.items[i + 1..] && b.items[k..] == [b.items[k]] + b.items[k + 1..];
    } else {
      HeadsApart("]", x, "]", y);
    }
  }

  lemma {:induction false} FieldsHead(j: Json, keys: set<string>, x: string)
    requires j.JObject? && keys <= j.fields.Keys
    ensures keys == {} ==> WriteFields(j, keys) + x == "}" + x
    ensures keys != {} ==> var k := Pick(keys);
              WriteFields(j, keys) + x == "," + (WriteText(k) + (Write(j.fields[k]) + (WriteFields(j, keys - {k}) + x)))
    ensures (WriteFields(j, keys) + x)[0] == if keys == {} then '}' else ','
  {}

  lemma {:induction false} FieldsApart(a: Json, keys: set<string>, x: string, b: Json, others: set<string>, y: string)
    requires a.JObject? && b.JObject? && keys <= a.fields.Keys && others <= b.fields.Keys
    requires WriteFields(a, keys) + x == WriteFields(b, others) + y
    ensures keys == others && x == y && forall k | k in keys :: a.fields[k] == b.fields[k]
    decreases a, 0, |keys|
  {
    FieldsHead(a, keys, x);
    FieldsHead(b, others, y);
    if keys != {} && others != {} {
      var k, l := Pick(keys), Pick(others);
      var p, q := WriteFields(a, keys - {k}) + x, WriteFields(b, others - {l}) + y;
      HeadsApart(",", WriteText(k) + (Write(a.fields[k]) + p), ",", WriteText(l) + (Write(b.fields[l]) + q));
      TextsApart(k, Write(a.fields[k]) + p, l, Write(b.fields[l]) + q);
      WritesApart(a.fields[k], p, b.fields[l], q);
      FieldsApart(a, keys - {k}, x, b, others - {l}, y);
      assert keys == (keys - {k}) + {k} && others == (others - {l}) + {l};
    } else {
      HeadsApart("}", x, "}", y);
    }
  }

  // ---------- Every text is one line ----------

  lemma {:induction false} DigitsOneLine(n: nat)
    ensures OneLine(Digits(n))
  {
    if n >= 10 {
      DigitsOneLine(n / 10);
    }
  }

  lemma NumberOneLine(n: int)
    ensures OneLine(WriteNumber(n))
  {
    DigitsOneLine(if n < 0 then -n else n);
  }

  lemma {:induction false} TextOneLine(s: string)
    ensures OneLine(WriteText(s))
  {
    if s != "" {
      NumberOneLine(s[0] as int);
      TextOneLine(s[1..]);
    }
  }

  lemma {:induction false} WriteOneLine(j: Json)
    ensures OneLine(Write(j))
    decreases j, 1, 0
  {
    match j
    case JNull =>
    case JBool(_) =>
    case JNumber(digits, exponent) =>
      NumberOneLine(digits);
      NumberOneLine(exponent);
    case JString(s) => TextOneLine(s);
    case JArray(_) => ItemsOneLine(j, 0);
    case JObject(fields) => FieldsOneLine(j, fields.Keys);
  }

  lemma {:induction false} ItemsOneLine(j: Json, from: nat)
    requires j.JArray? && from <= |j.items|
    ensures OneLine(WriteItems(j, from))
    decreases j, 0, |j.items| - from
  {
    if from < |j.items| {
      WriteOneLine(j.items[from]);
      ItemsOneLine(j, from + 1);
    }
  }

  lemma {:induction false} FieldsOneLine(j: Json, keys: set<string>)
    requires j.JObject? && keys <= j.fields.Keys
    ensures OneLine(WriteFields(j, keys))
    decreases j, 0, |keys|
  {
    if keys != {} {
      var k := Pick(keys);
      TextOneLine(k);
      WriteOneLine(j.fields[k]);
      FieldsOneLine(j, keys - {k});
    }
  }

  // ---------- The codec ----------

  ghost function Read(text: string): Json
  {
    if exists j: Json :: Write(j) == text then
      var j: Json :| Write(j) == text;
      j
    else JNull
  }

  lemma ReadWritten(j: Json)
    ensures Read(Write(j)) == j
  {
    var k := Read(Write(j));
    assert Write(k) == Write(j);
    assert Write(k) + "" == Write(j) + "";
    WritesApart(k, "", j, "");
  }

  function ReadTime(text: string): ParsedTime
  {
    match ReadDecimal(text)
    case Some(at) => Aware(at)
    case None => if text == "noon" then Naive else Malformed
  }

  lemma EmptyObject()
    ensures Read("{}") == JObject(map[])
  {
    var e := JObject(map[]);
    assert WriteFields(e, e.fields.Keys) == "}";
    assert Write(e) == "{}";
    ReadWritten(e);
  }

  lemma TimesRead(t: int)
    ensures Decimal(t) != "" && ReadTime(Decimal(t)) == Aware(t)
  {
    DecimalRead(t);
  }

  /** There is a codec with every fact the lemmas assume: reading back what was written,
      JSON text on one line, times that read back, and times without a zone. */
  lemma FaithfulCodecExists() returns (env: Env)
    ensures Faithful(env) && WritesOneLine(env.dumps) && env.fromIso("noon") == Naive
  {
    env := Env(j => Write(j), s => Read(s), t => Decimal(t), s => ReadTime(s), s => s);
    forall j: Json ensures env.loads(env.dumps(j)) == j && env.dumps(j) != "" && OneLine(env.dumps(j))
    {
      ReadWritten(j);
      WriteHead(j, "");
      WriteOneLine(j);
    }
    forall t: int ensures env.isoformat(t) != "" && env.fromIso(env.isoformat(t)) == Aware(t)
    {
      TimesRead(t);
    }
    EmptyObject();
  }
}
