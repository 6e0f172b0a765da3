/** Evaluation of JSON pointers (RFC 6901) to the objects of a recorded document. */
module JsonPointer {
  import opened Effects

  datatype Json =
    | Null | Bool(b: bool) | Number(text: string) | Str(s: string)
    | List(items: seq<Json>) | Object(fields: map<string, Json>)

  /** One reference token, as the value it is applied to understands it. */
  datatype Step = Key(key: string) | Index(i: nat)

  // ---------------------------------------------------------------------------------------------
  // What a path denotes, and how it is written

  function Child(value: Json, step: Step): Option<Json> {
    match step
    case Key(key) => if value.Object? && key in value.fields then Some(value.fields[key]) else None
    case Index(i) => if value.List? && i < |value.items| then Some(value.items[i]) else None
  }

  function At(value: Json, path: seq<Step>): Option<Json> {
    if path == [] then Some(value)
    else
      var child := Child(value, path[0]);
      if child.None? then None else At(child.value, path[1..])
  }

  function Digit(d: nat): char
    requires d < 10
  {
    "0123456789"[d]
  }

  function Decimal(n: nat): (s: string)
    ensures s != ""
  {
    (if n < 10 then "" else Decimal(n / 10)) + [Digit(n % 10)]
  }

  /** Section 3 of RFC 6901. */
  function Escape(key: string): string {
    if key == "" then ""
    else (if key[0] == '~' then "~0" else if key[0] == '/' then "~1" else [key[0]]) + Escape(key[1..])
  }

  function Token(step: Step): string {
    match step
    case Key(key) => Escape(key)
    case Index(i) => Decimal(i)
  }

  function Pointer(path: seq<Step>): string {
    if path == [] then "" else "/" + Token(path[0]) + Pointer(path[1..])
  }

  // ---------------------------------------------------------------------------------------------
  // reference_at

  /** `re.search(r'~(?![01])', pointer)` finds nothing. */
  predicate TildesPaired(s: string) {
    forall i :: 0 <= i < |s| && s[i] == '~' ==> i + 1 < |s| && (s[i + 1] == '0' || s[i + 1] == '1')
  }

  /** `s.split('/')`. */
  function Split(s: string): (parts: seq<string>)
    ensures |parts| >= 1
  {
    if s == "" then [""]
    else
      var rest := Split(s[1..]);
      if s[0] == '/' then [""] + rest else [[s[0]] + rest[0]] + rest[1..]
  }

  /** `s.replace(a + b, by)`. */
  function Replace(s: string, a: char, b: char, c: char): string {
    if |s| >= 2 && s[0] == a && s[1] == b then [c] + Replace(s[2..], a, b, c)
    else if s == "" then ""
    else [s[0]] + Replace(s[1..], a, b, c)
  }

  /** `part.replace('~1', '/').replace('~0', '~')`. */
  function Unescape(part: string): string {
    Replace(Replace(part, '~', '1', '/'), '~', '0', '~')
  }

  predicate IsDigit(c: char) {
    '0' <= c <= '9'
  }

  function DigitOf(c: char): (d: nat)
    requires IsDigit(c)
    ensures d < 10 && Digit(d) == c
  {
    c as int - 48
  }

  /** `re.fullmatch(r'0|[1-9][0-9]*', key)`. */
  predicate IsIndex(key: string) {
    key == "0" || (key != "" && key[0] != '0' && forall c <- key :: IsDigit(c))
  }

  /** `int(key)`. */
  function Value(key: string): nat
    requires forall c <- key :: IsDigit(c)
  {
    if key == "" then 0
    else
      var last := key[|key| - 1];
      assert last in key;
      10 * Value(key[..|key| - 1]) + DigitOf(last)
  }

  function Select(value: Json, part: string): Option<Json> {
    var key := Unescape(part);
    if value.List? then if IsIndex(key) then Child(value, Index(Value(key))) else None
    else if value.Object? then Child(value, Key(key))
    else None
  }

  function Walk(value: Json, parts: seq<string>): Option<Json> {
    if parts == [] then Some(value)
    else
      var next := Select(value, parts[0]);
      if next.None? then None else Walk(next.value, parts[1..])
  }

  predicate WellFormed(pointer: string) {
    pointer != "" && pointer[0] == '/' && TildesPaired(pointer)
  }

  function Evaluated(document: Json, pointer: string): Option<Json> {
    if !WellFormed(pointer) then None
    else
      var value := Walk(document, Split(pointer[1..]));
      if value.Some? && value.value.Object? then value else None
  }

  /** Every refusal of the original is one exception type or another; all are None here. */
  method ReferenceAt(document: Json, pointer: string) returns (r: Option<Json>)
    ensures r == Evaluated(document, pointer)
  {
    if !WellFormed(pointer) {
      return None;
    }
    var value := document;
    var parts := Split(pointer[1..]);
    for i := 0 to |parts|
      invariant Walk(value, parts[i..]) == Walk(document, parts)
    {
      var next := Select(value, parts[i]);
      assert parts[i..][1..] == parts[i + 1..];
      if next.None? {
        return None;
      }
      value := next.value;
    }
    return if value.Object? then Some(value) else None;
  }

  // ---------------------------------------------------------------------------------------------
  // Escaping and splitting are undone

  /** After the first replacement. */
  function HalfEscape(key: string): string {
    if key == "" then "" else (if key[0] == '~' then "~0" else [key[0]]) + HalfEscape(key[1..])
  }

  lemma {:induction false} FirstReplacement(key: string)
    ensures Replace(Escape(key), '~', '1', '/') == HalfEscape(key)
  {
    if key != "" {
      var s, rest := Escape(key), Escape(key[1..]);
      FirstReplacement(key[1..]);
      if key[0] == '/' {
        assert s[2..] == rest;
      } else if key[0] == '~' {
        assert s[1..] == "0" + rest && s[1..][1..] == rest;
      } else {
        assert s[1..] == rest;
      }
    }
  }

  lemma {:induction false} SecondReplacement(key: string)
    ensures Replace(HalfEscape(key), '~', '0', '~') == key
  {
    if key != "" {
      var s, rest := HalfEscape(key), HalfEscape(key[1..]);
      SecondReplacement(key[1..]);
      if key[0] == '~' {
        assert s[2..] == rest;
      } else {
        assert s[1..] == rest;
      }
    }
  }

  /** Whatever mix of `~` and `/` a key contains. */
  lemma UnescapeUndoesEscape(key: string)
    ensures Unescape(Escape(key)) == key
  {
    FirstReplacement(key);
    SecondReplacement(key);
  }

  /** The keys `a/b` and `m~n` of section 5 of RFC 6901. */
  lemma StandardEscapes()
    ensures Escape("a/b") == "a~1b" && Escape("m~n") == "m~0n"
    ensures Unescape("a~1b") == "a/b" && Unescape("m~0n") == "m~n"
  {
    EscapesOf("a", '/', "b", "~1");
    EscapesOf("m", '~', "n", "~0");
    UnescapeUndoesEscape("a/b");
    UnescapeUndoesEscape("m~n");
  }

  lemma EscapesOf(a: string, c: char, b: string, e: string)
    requires |a| == |b| == 1 && a[0] != '~' && a[0] != '/' && b[0] != '~' && b[0] != '/'
    requires (c == '~' && e == "~0") || (c == '/' && e == "~1")
    ensures Escape(a + [c] + b) == a + e + b
  {
    var key := a + [c] + b;
    assert key[1..] == [c] + b && ([c] + b)[1..] == b && b[1..] == "";
    assert Escape(b) == b;
    assert Escape([c] + b) == e + b;
    assert a + e + b == [a[0]] + (e + b);
  }

  /** Section 4 of RFC 6901: in the other order, the key `~1` would be read as `/`. */
  lemma OrderMatters()
    ensures Replace(Replace(Escape("~1"), '~', '0', '~'), '~', '1', '/') == "/"
  {
    assert Escape("~1") == "~01" by {
      assert "~1"[1..] == "1" && "1"[1..] == "";
      assert Escape("") == "" && Escape("1") == "1";
    }
    assert "~01"[2..] == "1";
    assert Replace("1", '~', '0', '~') == "1" by { assert "1"[1..] == ""; }
    assert Replace("~01", '~', '0', '~') == "~1";
    assert "~1"[2..] == "";
  }

  predicate NoSlash(s: string) {
    '/' !in s
  }

  function Join(parts: seq<string>): string
    requires parts != []
  {
    if |parts| == 1 then parts[0] else parts[0] + "/" + Join(parts[1..])
  }

  lemma {:induction false} SplitUndoesJoin(parts: seq<string>)
    requires parts != [] && forall p <- parts :: NoSlash(p)
    ensures Split(Join(parts)) == parts
    decreases |parts|, |parts[0]|
  {
    assert parts[0] in parts;
    if parts[0] != "" {
      var p := parts[0];
      var shorter := [p[1..]] + parts[1..];
      assert p[0] in p;
      assert shorter[1..] == parts[1..];
      assert Join(parts)[1..] == Join(shorter);
      forall x <- shorter ensures NoSlash(x) {
        assert x == p[1..] || x in parts;
      }
      SplitUndoesJoin(shorter);
      assert Join(parts)[0] == p[0] && [p[0]] + p[1..] == p;
      assert [p] + parts[1..] == parts;
    } else if |parts| > 1 {
      assert Join(parts)[1..] == Join(parts[1..]);
      SplitUndoesJoin(parts[1..]);
      assert [""] + parts[1..] == parts;
    } else {
      assert parts == [""];
    }
  }

  lemma {:induction false} JoinUndoesSplit(s: string)
    ensures Join(Split(s)) == s
    ensures forall p <- Split(s) :: NoSlash(p)
  {
    if s != "" {
      var rest := Split(s[1..]);
      JoinUndoesSplit(s[1..]);
      if s[0] == '/' {
        assert Split(s)[1..] == rest;
        assert s == "/" + s[1..];
      } else {
        assert rest[0] in rest && forall p <- rest[1..] :: p in rest;
        assert Split(s)[1..] == rest[1..];
        assert s == [s[0]] + s[1..];
      }
    }
  }

  // ---------------------------------------------------------------------------------------------
  // Indices

  lemma DigitValue(d: nat)
    requires d < 10
    ensures IsDigit(Digit(d)) && DigitOf(Digit(d)) == d && (Digit(d) == '0' <==> d == 0)
  {
  }

  lemma {:induction false} DecimalIsIndex(n: nat)
    ensures IsIndex(Decimal(n)) && (forall c <- Decimal(n) :: IsDigit(c)) && Value(Decimal(n)) == n
  {
    var s := Decimal(n);
    DigitValue(n % 10);
    if n < 10 {
      assert s == [Digit(n)];
      assert s[..|s| - 1] == "";
    } else {
      DecimalIsIndex(n / 10);
      assert s[..|s| - 1] == Decimal(n / 10);
      assert s[0] == Decimal(n / 10)[0];
      assert Decimal(n / 10) != "0";
    }
  }

  lemma DivMod(v: nat, d: nat)
    requires d < 10
    ensures (10 * v + d) / 10 == v && (10 * v + d) % 10 == d && (10 * v + d < 10 <==> v == 0)
  {
  }

  /** A canonical index without its last digit is canonical, or empty. */
  lemma IndexInit(s: string)
    requires IsIndex(s) && |s| > 1
    ensures var most := s[..|s| - 1]; IsIndex(most) && (forall c <- most :: IsDigit(c)) && Value(most) > 0
  {
    var most := s[..|s| - 1];
    assert most[0] == s[0] && forall c <- most :: c in s;
    PositiveValue(most);
  }

  lemma DecimalAppend(n: nat, c: char)
    requires IsDigit(c) && n > 0
    ensures Decimal(10 * n + DigitOf(c)) == Decimal(n) + [c]
  {
    DivMod(n, DigitOf(c));
  }

  /** One more digit behind a canonical index. */
  lemma IndexAppend(s: string, most: string, value: nat, v: nat, last: char)
    requires s == most + [last] && IsDigit(last) && v > 0 && Decimal(v) == most && value == 10 * v + DigitOf(last)
    ensures Decimal(value) == s
  {
    DecimalAppend(v, last);
  }

  lemma {:induction false} IndexIsDecimal(s: string)
    requires IsIndex(s) && forall c <- s :: IsDigit(c)
    ensures Decimal(Value(s)) == s
    decreases |s|
  {
    var most, last := s[..|s| - 1], s[|s| - 1];
    assert last in s;
    if |s| == 1 {
      OneDigit(last);
      assert s == [last];
    } else {
      IndexInit(s);
      IndexIsDecimal(most);
      ValueAppend(s);
      InitLast(s);
      IndexAppend(s, most, Value(s), Value(most), last);
    }
  }

  lemma OneDigit(c: char)
    requires IsDigit(c)
    ensures Value([c]) == DigitOf(c) && Decimal(DigitOf(c)) == [c]
  {
    assert [c][..0] == "";
  }

  lemma InitLast(s: string)
    requires s != ""
    ensures s == s[..|s| - 1] + [s[|s| - 1]]
  {
  }

  lemma ValueAppend(s: string)
    requires s != "" && forall c <- s :: IsDigit(c)
    ensures IsDigit(s[|s| - 1]) && (forall c <- s[..|s| - 1] :: IsDigit(c))
    ensures Value(s) == 10 * Value(s[..|s| - 1]) + DigitOf(s[|s| - 1])
  {
    assert s[|s| - 1] in s && forall c <- s[..|s| - 1] :: c in s;
  }

  lemma {:induction false} PositiveValue(s: string)
    requires s != "" && s[0] != '0' && forall c <- s :: IsDigit(c)
    ensures Value(s) > 0
    decreases |s|
  {
    var most := s[..|s| - 1];
    assert s[0] in s && forall c <- most :: c in s;
    DigitValue(DigitOf(s[0]));
    if most != "" {
      assert most[0] == s[0];
      PositiveValue(most);
    }
  }

  // ---------------------------------------------------------------------------------------------
  // Exactly the objects of the document

  function Tokens(path: seq<Step>): seq<string> {
    if path == [] then [] else [Token(path[0])] + Tokens(path[1..])
  }

  lemma {:induction false} PointerJoins(path: seq<Step>)
    requires path != []
    ensures Tokens(path) != [] && Pointer(path) == "/" + Join(Tokens(path))
  {
    var t := Token(path[0]);
    if |path| > 1 {
      PointerJoins(path[1..]);
      Associate("/", t, "/", Join(Tokens(path[1..])));
      assert Tokens(path)[1..] == Tokens(path[1..]);
    } else {
      assert path[1..] == [] && Tokens(path) == [t];
      assert "/" + t + "" == "/" + t;
    }
  }

  lemma Associate(a: string, b: string, c: string, d: string)
    ensures a + b + (c + d) == a + (b + c + d)
  {
  }

  lemma {:induction false} EscapedIsPlain(key: string)
    ensures NoSlash(Escape(key)) && TildesPaired(Escape(key))
  {
    if key != "" {
      EscapedIsPlain(key[1..]);
      PairedConcat(if key[0] == '~' then "~0" else if key[0] == '/' then "~1" else [key[0]], Escape(key[1..]));
    }
  }

  lemma PairedConcat(a: string, b: string)
    requires TildesPaired(a) && TildesPaired(b)
    ensures TildesPaired(a + b)
  {
  }

  lemma TokenIsPlain(step: Step)
    ensures NoSlash(Token(step)) && TildesPaired(Token(step))
  {
    if step.Key? {
      EscapedIsPlain(step.key);
    } else {
      DecimalIsIndex(step.i);
      forall j | 0 <= j < |Decimal(step.i)| ensures IsDigit(Decimal(step.i)[j]) {
        assert Decimal(step.i)[j] in Decimal(step.i);
      }
    }
  }

  lemma {:induction false} PointerIsPlain(path: seq<Step>)
    ensures TildesPaired(Pointer(path))
    ensures forall t <- Tokens(path) :: NoSlash(t)
  {
    if path != [] {
      TokenIsPlain(path[0]);
      PointerIsPlain(path[1..]);
      PairedConcat("/", Token(path[0]));
      PairedConcat("/" + Token(path[0]), Pointer(path[1..]));
    }
  }

  lemma {:induction false} ReplaceNothing(s: string, b: char, c: char)
    requires forall x <- s :: IsDigit(x)
    ensures Replace(s, '~', b, c) == s
  {
    if s != "" {
      assert s[0] in s && forall x <- s[1..] :: x in s;
      ReplaceNothing(s[1..], b, c);
    }
  }

  /** A token selects exactly the child its step denotes. */
  lemma SelectsChild(value: Json, step: Step)
    requires Child(value, step).Some?
    ensures Select(value, Token(step)) == Child(value, step)
  {
    if step.Key? {
      UnescapeUndoesEscape(step.key);
    } else {
      DecimalIsIndex(step.i);
      ReplaceNothing(Decimal(step.i), '1', '/');
      ReplaceNothing(Decimal(step.i), '0', '~');
    }
  }

  lemma {:induction false} WalksPath(value: Json, path: seq<Step>)
    requires At(value, path).Some?
    ensures Walk(value, Tokens(path)) == At(value, path)
    decreases |path|
  {
    if path != [] {
      SelectsChild(value, path[0]);
      WalksPath(Child(value, path[0]).value, path[1..]);
    }
  }

  /** Every object of a document is found by the pointer that its path is written as. */
  lemma RoundTrip(document: Json, path: seq<Step>)
    requires path != [] && At(document, path).Some? && At(document, path).value.Object?
    ensures Evaluated(document, Pointer(path)) == At(document, path)
  {
    PointerJoins(path);
    PointerIsPlain(path);
    assert Pointer(path)[1..] == Join(Tokens(path));
    SplitUndoesJoin(Tokens(path));
    WalksPath(document, path);
  }

  /** One token, decoded character by character. */
  function Decode(part: string): string {
    if |part| >= 2 && part[0] == '~' then [if part[1] == '1' then '/' else '~'] + Decode(part[2..])
    else if part == "" then ""
    else [part[0]] + Decode(part[1..])
  }

  lemma RestIsPaired(part: string, n: nat)
    requires n <= |part| && TildesPaired(part)
    ensures TildesPaired(part[n..])
  {
    var rest := part[n..];
    forall i | 0 <= i < |rest| && rest[i] == '~' ensures i + 1 < |rest| && (rest[i + 1] == '0' || rest[i + 1] == '1') {
      assert part[n + i] == '~';
    }
  }

  /** The first replacement and escaping, at a pair and at any other character. */
  lemma DecodePair(b: char, rest: string)
    requires b == '0' || b == '1'
    ensures
      var part := ['~', b] + rest;
      && Replace(part, '~', '1', '/') == (if b == '1' then "/" else "~0") + Replace(rest, '~', '1', '/')
      && Decode(part) == (if b == '1' then "/" else "~") + Decode(rest)
  {
    var part := ['~', b] + rest;
    assert part[2..] == rest;
    if b == '0' {
      assert part[1..] == ['0'] + rest;
      ReplaceOther('0', rest);
      assert ['~'] + (['0'] + Replace(rest, '~', '1', '/')) == "~0" + Replace(rest, '~', '1', '/');
    }
  }

  lemma ReplaceOther(c: char, rest: string)
    requires c != '~'
    ensures Replace([c] + rest, '~', '1', '/') == [c] + Replace(rest, '~', '1', '/')
  {
    assert ([c] + rest)[1..] == rest;
  }

  lemma DecodePlain(c: char, rest: string)
    requires c != '~' && c != '/'
    ensures
      var part := [c] + rest;
      && Replace(part, '~', '1', '/') == [c] + Replace(rest, '~', '1', '/') && Decode(part) == [c] + Decode(rest)
      && HalfEscape([c] + Decode(rest)) == [c] + HalfEscape(Decode(rest))
      && Escape([c] + Decode(rest)) == [c] + Escape(Decode(rest))
  {
    assert ([c] + rest)[1..] == rest && ([c] + Decode(rest))[1..] == Decode(rest);
  }

  lemma EscapePair(b: char, d: string)
    requires b == '0' || b == '1'
    ensures
      var s := (if b == '1' then "/" else "~") + d;
      HalfEscape(s) == (if b == '1' then "/" else "~0") + HalfEscape(d) && Escape(s) == ['~', b] + Escape(d)
  {
    var s := (if b == '1' then "/" else "~") + d;
    assert s[1..] == d;
  }

  lemma HeadTail(s: string)
    requires s != ""
    ensures s == [s[0]] + s[1..] && (|s| >= 2 ==> s == [s[0], s[1]] + s[2..])
  {
  }

  lemma {:induction false} DecodeTwice(part: string)
    requires NoSlash(part) && TildesPaired(part)
    ensures Replace(part, '~', '1', '/') == HalfEscape(Decode(part)) && Escape(Decode(part)) == part
    decreases |part|
  {
    if part != "" {
      var n := if part[0] == '~' then 2 else 1;
      var rest := part[n..];
      assert part[0] in part && forall c <- rest :: c in part;
      RestIsPaired(part, n);
      DecodeTwice(rest);
      HeadTail(part);
      if part[0] == '~' {
        DecodePair(part[1], rest);
        EscapePair(part[1], Decode(rest));
      } else {
        DecodePlain(part[0], rest);
      }
    }
  }

  lemma EscapeUndoesUnescape(part: string)
    requires NoSlash(part) && TildesPaired(part)
    ensures Escape(Unescape(part)) == part
  {
    DecodeTwice(part);
    SecondReplacement(Decode(part));
  }

  lemma {:induction false} DigitsAreTheirOwnEscape(key: string)
    requires forall c <- key :: IsDigit(c)
    ensures Escape(key) == key
  {
    if key != "" {
      assert key[0] in key && forall c <- key[1..] :: c in key;
      DigitsAreTheirOwnEscape(key[1..]);
    }
  }

  /** The step a token stands for, at a given value. */
  lemma StepOf(value: Json, part: string) returns (step: Step)
    requires NoSlash(part) && TildesPaired(part) && Select(value, part).Some?
    ensures Token(step) == part && Child(value, step) == Select(value, part)
  {
    var key := Unescape(part);
    EscapeUndoesUnescape(part);
    if value.List? {
      step := Index(Value(key));
      IndexIsDecimal(key);
      DigitsAreTheirOwnEscape(key);
    } else {
      step := Key(key);
    }
  }

  lemma {:induction false} PathOf(value: Json, parts: seq<string>) returns (path: seq<Step>)
    requires Walk(value, parts).Some? && forall p <- parts :: NoSlash(p) && TildesPaired(p)
    ensures Tokens(path) == parts && At(value, path) == Walk(value, parts)
    decreases |parts|
  {
    if parts == [] {
      path := [];
    } else {
      assert parts[0] in parts && forall p <- parts[1..] :: p in parts;
      var step := StepOf(value, parts[0]);
      var rest := PathOf(Child(value, step).value, parts[1..]);
      path := [step] + rest;
      PathCons(value, step, rest);
      assert parts == [parts[0]] + parts[1..];
    }
  }

  lemma PathCons(value: Json, step: Step, rest: seq<Step>)
    requires Child(value, step).Some?
    ensures Tokens([step] + rest) == [Token(step)] + Tokens(rest)
    ensures At(value, [step] + rest) == At(Child(value, step).value, rest)
  {
    assert ([step] + rest)[1..] == rest;
  }

  lemma {:induction false} SplitKeepsPairs(s: string)
    requires TildesPaired(s)
    ensures forall p <- Split(s) :: TildesPaired(p)
  {
    if s != "" {
      var rest := Split(s[1..]);
      assert TildesPaired(s[1..]) by {
        forall i | 0 <= i < |s[1..]| && s[1..][i] == '~'
          ensures i + 1 < |s[1..]| && (s[1..][i + 1] == '0' || s[1..][i + 1] == '1')
        {
          assert s[i + 1] == '~';
        }
      }
      SplitKeepsPairs(s[1..]);
      assert rest[0] in rest && forall p <- rest[1..] :: p in rest;
      if s[0] == '~' {
        assert rest[0] != "" && rest[0][0] == s[1];
      }
    }
  }

  /** A pointer is accepted exactly when it is the written path of an object in the document, and then
      it evaluates to that object. */
  lemma AcceptsExactlyObjects(document: Json, pointer: string, found: Json)
    ensures Evaluated(document, pointer) == Some(found) <==>
              found.Object? && exists path :: path != [] && Pointer(path) == pointer && At(document, path) == Some(found)
  {
    if Evaluated(document, pointer) == Some(found) {
      var s := pointer[1..];
      assert TildesPaired(s) by {
        forall i | 0 <= i < |s| && s[i] == '~' ensures i + 1 < |s| && (s[i + 1] == '0' || s[i + 1] == '1') {
          assert pointer[i + 1] == '~';
        }
      }
      SplitKeepsPairs(s);
      JoinUndoesSplit(s);
      var path := PathOf(document, Split(s));
      PointerJoins(path);
      assert pointer == "/" + s;
    }
    if found.Object? {
      forall path | path != [] && Pointer(path) == pointer && At(document, path) == Some(found)
        ensures Evaluated(document, pointer) == Some(found)
      {
        RoundTrip(document, path);
      }
    }
  }
}
