/** JSON texts (RFC 8259, sections 4, 6 and 7) without white space, escapes, exponents, arrays and null: what
    the encoders write, and a reader for it. Every text the reader accepts is a JSON text. */
module Json {
  import opened Decimal

  datatype Json = Str(text: string) | Num(digits: string) | Bool(value: bool) | Obj(fields: Fields)

  datatype Fields = End | Field(key: string, value: Json, rest: Fields)

  /** A character that stands for itself inside a string: no quote, backslash or control character. */
  predicate PlainChar(c: char) {
    c != '\"' && c != '\\' && c >= ' '
  }

  predicate Plain(s: string) {
    forall i :: 0 <= i < |s| ==> PlainChar(s[i])
  }

  predicate WellFormed(v: Json) {
    match v
    case Str(text) => Plain(text)
    case Num(digits) => IsNumber(digits)
    case Bool(_) => true
    case Obj(fields) => WellFormedFields(fields)
  }

  predicate WellFormedFields(fs: Fields) {
    match fs
    case End => true
    case Field(key, value, rest) => Plain(key) && WellFormed(value) && WellFormedFields(rest)
  }

  // ----- writing: `acc` is what the buffer holds already

  function WithString(acc: string, s: string): string {
    acc + ['\"'] + s + ['\"']
  }

  function WithKey(acc: string, key: string): string {
    WithString(acc, key) + [':']
  }

  const TRUE := "true"
  const FALSE := "false"

  function WithBool(acc: string, b: bool): string {
    acc + if b then TRUE else FALSE
  }

  function Render(acc: string, v: Json): string
    decreases v, 0
  {
    match v
    case Str(text) => WithString(acc, text)
    case Num(digits) => acc + digits
    case Bool(b) => WithBool(acc, b)
    case Obj(fields) => RenderFields(acc + ['{'], fields) + ['}']
  }

  function RenderFields(acc: string, fs: Fields): string
    decreases fs, 1
  {
    match fs
    case End => acc
    case Field(key, value, rest) =>
      var t := Render(WithKey(acc, key), value);
      if rest.End? then t else RenderFields(t + [','], rest)
  }

  // ----- reading

  datatype Parsed<T> = Fail | Ok(value: T, at: nat)

  /** The first position from `i` on that does not hold a plain character. */
  function StringEnd(s: string, i: nat): (j: nat)
    requires i <= |s|
    ensures i <= j <= |s|
    decreases |s| - i
  {
    if i < |s| && PlainChar(s[i]) then StringEnd(s, i + 1) else i
  }

  function ReadString(s: string, i: nat): (p: Parsed<string>)
    ensures p.Ok? ==> i < p.at <= |s|
  {
    if i < |s| && s[i] == '\"' then
      var j := StringEnd(s, i + 1);
      if j < |s| && s[j] == '\"' then Ok(s[i + 1..j], j + 1) else Fail
    else Fail
  }

  predicate NumberChar(c: char) {
    IsDigit(c) || c == '-' || c == '.'
  }

  function NumberEnd(s: string, i: nat): (j: nat)
    requires i <= |s|
    ensures i <= j <= |s| && (i < |s| && NumberChar(s[i]) ==> i < j)
    decreases |s| - i
  {
    if i < |s| && NumberChar(s[i]) then NumberEnd(s, i + 1) else i
  }

  /** A number or a boolean; the digits of a number are not checked here. */
  function ReadWord(s: string, i: nat): (p: Parsed<Json>)
    requires i < |s|
    ensures p.Ok? ==> i < p.at <= |s|
  {
    if NumberChar(s[i]) then Ok(Num(s[i..NumberEnd(s, i)]), NumberEnd(s, i))
    else if TRUE <= s[i..] then Ok(Bool(true), i + |TRUE|)
    else if FALSE <= s[i..] then Ok(Bool(false), i + |FALSE|)
    else Fail
  }

  function ReadValue(s: string, i: nat): (p: Parsed<Json>)
    ensures p.Ok? ==> i < p.at <= |s|
    decreases |s| - i, 0
  {
    if i >= |s| then Fail
    else if s[i] == '\"' then
      var t := ReadString(s, i);
      if t.Ok? then Ok(Str(t.value), t.at) else Fail
    else if s[i] == '{' then
      if i + 1 < |s| && s[i + 1] == '}' then Ok(Obj(End), i + 2)
      else
        var fs := ReadFields(s, i + 1);
        if fs.Ok? && fs.at < |s| && s[fs.at] == '}' then Ok(Obj(fs.value), fs.at + 1) else Fail
    else ReadWord(s, i)
  }

  function ReadFields(s: string, i: nat): (p: Parsed<Fields>)
    ensures p.Ok? ==> i < p.at <= |s|
    decreases |s| - i, 1
  {
    var key := ReadString(s, i);
    if key.Fail? || key.at >= |s| || s[key.at] != ':' then Fail
    else
      var value := ReadValue(s, key.at + 1);
      if value.Fail? then Fail
      else if value.at < |s| && s[value.at] == ',' then
        var rest := ReadFields(s, value.at + 1);
        if rest.Ok? then Ok(Field(key.value, value.value, rest.value), rest.at) else Fail
      else Ok(Field(key.value, value.value, End), value.at)
  }

  datatype Document = NotJson | Document(value: Json)

  /** Reads a whole text, and checks what it has read. */
  function Read(s: string): Document {
    var p := ReadValue(s, 0);
    if p.Ok? && p.at == |s| && WellFormed(p.value) then Document(p.value) else NotJson
  }

  function Write(v: Json): string {
    Render("", v)
  }

  // ----- what is written reads back

  lemma {:induction false} RenderExtends(acc: string, v: Json)
    ensures acc <= Render(acc, v)
    decreases v, 0
  {
    match v
    case Obj(fields) => RenderFieldsExtends(acc + ['{'], fields);
    case _ =>
  }

  lemma {:induction false} RenderFieldsExtends(acc: string, fs: Fields)
    ensures acc <= RenderFields(acc, fs)
    decreases fs, 1
  {
    match fs
    case End =>
    case Field(key, value, rest) =>
      var t := Render(WithKey(acc, key), value);
      RenderExtends(WithKey(acc, key), value);
      if !rest.End? {
        RenderFieldsExtends(t + [','], rest);
      }
  }

  lemma {:induction false} StringEndOf(s: string, i: nat, j: nat)
    requires i <= j < |s| && (forall k :: i <= k < j ==> PlainChar(s[k])) && !PlainChar(s[j])
    ensures StringEnd(s, i) == j
    decreases j - i
  {
    if i < j {
      StringEndOf(s, i + 1, j);
    }
  }

  lemma StringReadsBack(s: string, acc: string, text: string)
    requires WithString(acc, text) <= s && Plain(text)
    ensures ReadString(s, |acc|) == Ok(text, |WithString(acc, text)|)
  {
    var i, j := |acc| + 1, |acc| + 1 + |text|;
    var w := WithString(acc, text);
    assert s[|acc|] == w[|acc|] == '\"';
    assert s[j] == w[j] == '\"';
    assert s[i..j] == w[i..j] == text;
    forall k | i <= k < j
      ensures PlainChar(s[k])
    {
      assert s[k] == s[i..j][k - i];
    }
    StringEndOf(s, i, j);
  }

  lemma {:induction false} NumberEndOf(s: string, i: nat, j: nat)
    requires i <= j <= |s| && (forall k :: i <= k < j ==> NumberChar(s[k])) && (j < |s| ==> !NumberChar(s[j]))
    ensures NumberEnd(s, i) == j
    decreases j - i
  {
    if i < j {
      NumberEndOf(s, i + 1, j);
    }
  }

  lemma NumberChars(digits: string)
    requires IsNumber(digits)
    ensures digits != [] && forall i :: 0 <= i < |digits| ==> NumberChar(digits[i])
  {
    var body := if Negative(digits) then digits[1..] else digits;
    var k := Point(body);
    forall i | 0 <= i < |body|
      ensures NumberChar(body[i])
    {
      if i < k {
        assert body[..k][i] == body[i];
      } else if i > k {
        assert body[k + 1..][i - k - 1] == body[i];
      }
    }
    forall i | 0 <= i < |digits|
      ensures NumberChar(digits[i])
    {
      if Negative(digits) && i > 0 {
        assert digits[i] == body[i - 1];
      }
    }
  }

  /** A value may be followed by the end of the text, or by something that cannot belong to a number. */
  predicate Ends(s: string, at: nat) {
    at < |s| ==> !NumberChar(s[at])
  }

  lemma NumberStands(s: string, acc: string, digits: string)
    requires digits != [] && forall i :: 0 <= i < |digits| ==> NumberChar(digits[i])
    requires acc + digits <= s && Ends(s, |acc + digits|)
    ensures s[|acc|..|acc + digits|] == digits && NumberEnd(s, |acc|) == |acc + digits|
    ensures |acc| < |s| && NumberChar(s[|acc|])
  {
    var i, j := |acc|, |acc + digits|;
    var word := s[i..j];
    assert word == digits;
    assert forall k :: i <= k < j ==> s[k] == word[k - i];
    NumberEndOf(s, i, j);
  }

  lemma NumberReadsBack(s: string, acc: string, digits: string)
    requires acc + digits <= s && IsNumber(digits) && Ends(s, |acc + digits|)
    ensures ReadValue(s, |acc|) == Ok(Num(digits), |acc + digits|)
  {
    NumberChars(digits);
    NumberStands(s, acc, digits);
  }

  lemma BoolReadsBack(s: string, acc: string, b: bool)
    requires WithBool(acc, b) <= s
    ensures ReadValue(s, |acc|) == Ok(Bool(b), |WithBool(acc, b)|)
  {
    var word := if b then TRUE else FALSE;
    var i := |acc|;
    assert s[i..] == word + s[i + |word|..] by {
      assert s[i..i + |word|] == (acc + word)[i..] == word;
    }
    assert s[i] == s[i..][0] == word[0];
  }

  lemma {:induction false} ValueReadsBack(s: string, acc: string, v: Json)
    requires WellFormed(v) && Render(acc, v) <= s && Ends(s, |Render(acc, v)|)
    ensures ReadValue(s, |acc|) == Ok(v, |Render(acc, v)|)
    decreases v, 0
  {
    match v
    case Str(text) =>
      StringReadsBack(s, acc, text);
      assert s[|acc|] == WithString(acc, text)[|acc|];
    case Num(digits) => NumberReadsBack(s, acc, digits);
    case Bool(b) => BoolReadsBack(s, acc, b);
    case Obj(fields) => ObjectReadsBack(s, acc, fields);
  }

  lemma {:induction false} ObjectReadsBack(s: string, acc: string, fields: Fields)
    requires WellFormedFields(fields) && Render(acc, Obj(fields)) <= s
    ensures ReadValue(s, |acc|) == Ok(Obj(fields), |Render(acc, Obj(fields))|)
    decreases fields, 2
  {
    var open := acc + ['{'];
    var inner := RenderFields(open, fields);
    RenderFieldsExtends(open, fields);
    assert s[|acc|] == (inner + ['}'])[|acc|] == open[|acc|] == '{';
    assert s[|inner|] == (inner + ['}'])[|inner|] == '}';
    if !fields.End? {
      assert inner <= s;
      FieldsReadBack(s, open, fields);
    }
  }

  /** A list of fields has been written into the text, and is closed there. */
  predicate Stands(s: string, acc: string, fs: Fields) {
    && fs.Field? && RenderFields(acc, fs) <= s
    && |RenderFields(acc, fs)| < |s| && s[|RenderFields(acc, fs)|] == '}'
  }

  lemma KeyStands(s: string, acc: string, fs: Fields)
    requires Stands(s, acc, fs) && Plain(fs.key)
    ensures var key := WithKey(acc, fs.key);
      |key| <= |s| && s[|key| - 1] == ':' && ReadString(s, |acc|) == Ok(fs.key, |key| - 1)
  {
    var key := WithKey(acc, fs.key);
    var t := Render(key, fs.value);
    RenderExtends(key, fs.value);
    if !fs.rest.End? {
      RenderFieldsExtends(t + [','], fs.rest);
    }
    assert key <= t <= RenderFields(acc, fs) <= s;
    assert s[|key| - 1] == key[|key| - 1];
    StringReadsBack(s, acc, fs.key);
  }

  lemma ValueStands(s: string, acc: string, fs: Fields)
    requires Stands(s, acc, fs)
    ensures var t := Render(WithKey(acc, fs.key), fs.value);
      && t <= s && |t| < |s| && Ends(s, |t|)
      && (if fs.rest.End? then s[|t|] == '}' else s[|t|] == ',' && Stands(s, t + [','], fs.rest))
  {
    var t := Render(WithKey(acc, fs.key), fs.value);
    if !fs.rest.End? {
      RenderFieldsExtends(t + [','], fs.rest);
      assert s[|t|] == RenderFields(acc, fs)[|t|] == (t + [','])[|t|];
    }
  }

  lemma {:induction false} FieldsReadBack(s: string, acc: string, fs: Fields)
    requires Stands(s, acc, fs) && WellFormedFields(fs)
    ensures ReadFields(s, |acc|) == Ok(fs, |RenderFields(acc, fs)|)
    ensures ReadString(s, |acc|).Ok?
    decreases fs, 1
  {
    KeyStands(s, acc, fs);
    ValueStands(s, acc, fs);
    var key := WithKey(acc, fs.key);
    var t := Render(key, fs.value);
    var k := |key| - 1;
    ValueReadsBack(s, key, fs.value);
    if fs.rest.End? {
      LastFieldIsRead(s, |acc|, k, |t|, fs.key, fs.value);
    } else {
      var more := t + [','];
      FieldsReadBack(s, more, fs.rest);
      FieldIsRead(s, |acc|, k, |t|, fs.key, fs.value, fs.rest, |RenderFields(more, fs.rest)|);
    }
  }

  lemma FieldIsRead(s: string, i: nat, k: nat, j: nat, key: string, value: Json, rest: Fields, end: nat)
    requires ReadString(s, i) == Ok(key, k) && k < |s| && s[k] == ':'
    requires ReadValue(s, k + 1) == Ok(value, j) && j < |s| && s[j] == ','
    requires ReadFields(s, j + 1) == Ok(rest, end)
    ensures ReadFields(s, i) == Ok(Field(key, value, rest), end)
  {
  }

  lemma LastFieldIsRead(s: string, i: nat, k: nat, j: nat, key: string, value: Json)
    requires ReadString(s, i) == Ok(key, k) && k < |s| && s[k] == ':'
    requires ReadValue(s, k + 1) == Ok(value, j) && j < |s| && s[j] == '}'
    ensures ReadFields(s, i) == Ok(Field(key, value, End), j)
  {
  }

  /** Writing and reading are inverse on well-formed values, and only on those. */
  lemma ReadsBackIff(v: Json)
    ensures Read(Write(v)) == Document(v) <==> WellFormed(v)
  {
    if WellFormed(v) {
      ValueReadsBack(Write(v), "", v);
    }
  }
}
