/** The slice of JavaScript semantics the client's pages rely on: values as they
    arrive from the server, truthiness and `||`, optional property access,
    `String()`, `Number()`, the `%` operator, `trim()`, `includes()`,
    `split(" ")` and `join`.  Library behaviour that is not visible in the
    client (case mapping, number printing and parsing, `JSON.stringify`) is
    taken as a parameter, a `Host`, rather than defined here. */
module Js {

  datatype Option<+T> = None | Some(value: T)

  /** A JavaScript value: JSON data plus `undefined`.  Numbers are integers. */
  datatype Value =
    | Undefined
    | Null
    | Bool(b: bool)
    | Num(n: int)
    | Str(s: string)
    | Arr(items: seq<Value>)
    | Obj(fields: map<string, Value>)

  /** The engine's library functions the client calls but whose text is not part
      of the client: they are left uninterpreted. */
  datatype Host = Host(
    lower: string -> string,             // String.prototype.toLowerCase
    upper: string -> string,             // String.prototype.toUpperCase
    numberText: int -> string,           // Number.prototype.toString
    parseNumber: string -> Option<int>,  // numeric literal of trimmed, non-blank text; None is NaN
    objectText: Value -> string,         // String(x) for an array or an object
    stringify: Value -> string,          // JSON.stringify
    typeErrorMessage: string)            // message of a TypeError raised by property access on null

  /** `!!v`: the falsy values are exactly `undefined`, `null`, `false`, `0` and `""`. */
  predicate Truthy(v: Value)
    ensures !Truthy(v) <==> v == Undefined || v == Null || v == Bool(false) || v == Num(0) || v == Str("")
  {
    match v
    case Undefined => false
    case Null => false
    case Bool(b) => b
    case Num(n) => n != 0
    case Str(s) => s != ""
    case Arr(_) => true
    case Obj(_) => true
  }

  /** `v == null`: the values on which a property read throws a TypeError. */
  predicate Nullish(v: Value) {
    v.Undefined? || v.Null?
  }

  /** `a || b` */
  function Or(a: Value, b: Value): (r: Value)
    ensures Truthy(r) <==> Truthy(a) || Truthy(b)
    ensures Truthy(a) ==> r == a
    ensures !Truthy(a) ==> r == b
  {
    if Truthy(a) then a else b
  }

  /** `v?.[key]` on JSON data: an own field of an object, else `undefined`; on `null`
      or `undefined` the optional chain yields `undefined` instead of throwing. */
  function Prop(v: Value, key: string): (r: Value)
    ensures Nullish(v) ==> r == Undefined
    ensures r != Undefined ==> v.Obj? && key in v.fields && r == v.fields[key]
    ensures v.Obj? && key in v.fields ==> r == v.fields[key]
  {
    if v.Obj? && key in v.fields then v.fields[key] else Undefined
  }

  /** `String(v)`, which is also what a template literal `${v}` and `alert(v)` print. */
  function StringOf(h: Host, v: Value): (r: string)
    ensures v.Str? ==> r == v.s
    ensures v == Undefined ==> r == "undefined"
    ensures v == Null ==> r == "null"
    ensures v.Bool? ==> r == if v.b then "true" else "false"
  {
    match v
    case Undefined => "undefined"
    case Null => "null"
    case Bool(b) => if b then "true" else "false"
    case Num(n) => h.numberText(n)
    case Str(s) => s
    case Arr(_) => h.objectText(v)
    case Obj(_) => h.objectText(v)
  }

  /** `Number(v)`; None stands for NaN. */
  function NumberOf(h: Host, v: Value): (r: Option<int>)
    ensures v.Num? ==> r == Some(v.n)
    ensures v == Undefined ==> r == None
    ensures v == Null || v == Bool(false) ==> r == Some(0)
    ensures v.Str? && Blank(v.s) ==> r == Some(0)
    ensures v.Str? && !Blank(v.s) ==> r == h.parseNumber(Trim(v.s))
  {
    match v
    case Undefined => None
    case Null => Some(0)
    case Bool(b) => Some(if b then 1 else 0)
    case Num(n) => Some(n)
    case Str(s) => StringToNumber(h, s)
    case Arr(_) => StringToNumber(h, h.objectText(v))
    case Obj(_) => StringToNumber(h, h.objectText(v))
  }

  /** `Number(s)` for a string: blank text is 0, anything else is parsed after trimming. */
  function StringToNumber(h: Host, s: string): (r: Option<int>)
    ensures Blank(s) ==> r == Some(0)
    ensures !Blank(s) ==> r == h.parseNumber(Trim(s))
  {
    if Trim(s) == "" then Some(0) else h.parseNumber(Trim(s))
  }

  /** `Math.abs(n)` */
  function Abs(n: int): nat {
    if n < 0 then -n else n
  }

  /** `a % b` on integers: the remainder truncates toward zero, so it takes the sign of `a`. */
  function Rem(a: int, b: int): (r: int)
    requires b > 0
    ensures -b < r < b
    ensures a >= 0 ==> r == a % b
    ensures a <= 0 ==> r <= 0
    ensures a < 0 ==> r == -((-a) % b)
  {
    if a >= 0 then a % b else -((-a) % b)
  }

  // ---------------------------------------------------------------------------
  // Whitespace and trim()

  /** ECMAScript WhiteSpace and LineTerminator code points: what `trim()` removes. */
  predicate IsSpace(c: char) {
    c == ' ' || c == '\t' || c == '\n' || c == '\r' || c == '\U{B}' || c == '\U{C}'
    || c == '\U{A0}' || c == '\U{1680}' || ('\U{2000}' <= c <= '\U{200A}')
    || c == '\U{2028}' || c == '\U{2029}' || c == '\U{202F}' || c == '\U{205F}'
    || c == '\U{3000}' || c == '\U{FEFF}'
  }

  predicate Blank(s: string) {
    forall i | 0 <= i < |s| :: IsSpace(s[i])
  }

  /** `s.trimStart()`: the longest suffix of `s` that does not start with whitespace. */
  function TrimStart(s: string): (r: string)
    ensures |r| <= |s| && r == s[|s| - |r|..]
    ensures Blank(s[..|s| - |r|])
    ensures r == [] || !IsSpace(r[0])
  {
    if s != [] && IsSpace(s[0]) then TrimStart(s[1..]) else s
  }

  /** `s.trimEnd()`: the longest prefix of `s` that does not end with whitespace. */
  function TrimEnd(s: string): (r: string)
    ensures |r| <= |s| && r == s[..|r|]
    ensures Blank(s[|r|..])
    ensures r == [] || !IsSpace(r[|r| - 1])
  {
    if s != [] && IsSpace(s[|s| - 1]) then TrimEnd(s[..|s| - 1]) else s
  }

  /** `s.trim()` */
  function Trim(s: string): (r: string)
    ensures r == [] <==> Blank(s)
    ensures r != [] ==> !IsSpace(r[0]) && !IsSpace(r[|r| - 1])
  {
    var t := TrimStart(s);
    assert s == s[..|s| - |t|] + t;
    TrimEnd(t)
  }

  lemma BlankAppend(x: string, y: string)
    ensures Blank(x + y) <==> Blank(x) && Blank(y)
  {
    if Blank(x) && Blank(y) {
      forall i | 0 <= i < |x + y| ensures IsSpace((x + y)[i]) {
        if i >= |x| { assert (x + y)[i] == y[i - |x|]; }
      }
    }
    if Blank(x + y) {
      forall i | 0 <= i < |x| ensures IsSpace(x[i]) {
        assert (x + y)[i] == x[i];
      }
      forall i | 0 <= i < |y| ensures IsSpace(y[i]) {
        assert (x + y)[|x| + i] == y[i];
      }
    }
  }

  lemma BlankCons(s: string)
    requires s != []
    ensures Blank(s) <==> IsSpace(s[0]) && Blank(s[1..])
  {
    assert s == [s[0]] + s[1..];
    BlankAppend([s[0]], s[1..]);
  }

  lemma BlankSnoc(s: string)
    requires s != []
    ensures Blank(s) <==> Blank(s[..|s| - 1]) && IsSpace(s[|s| - 1])
  {
    assert s == s[..|s| - 1] + [s[|s| - 1]];
    BlankAppend(s[..|s| - 1], [s[|s| - 1]]);
  }

  /** Leading whitespace of a concatenation comes from its first non-blank part. */
  lemma {:induction false} TrimStartAppend(x: string, y: string)
    ensures !Blank(x) ==> TrimStart(x + y) == TrimStart(x) + y
    ensures Blank(x) ==> TrimStart(x + y) == TrimStart(y)
    decreases |x|
  {
    if x == [] {
      assert x + y == y;
    } else {
      BlankCons(x);
      var xy := x + y;
      assert xy[0] == x[0];
      assert xy[1..] == x[1..] + y;
      if IsSpace(x[0]) {
        TrimStartAppend(x[1..], y);
        assert TrimStart(xy) == TrimStart(x[1..] + y);
        assert TrimStart(x) == TrimStart(x[1..]);
      } else {
        assert TrimStart(xy) == xy;
        assert TrimStart(x) == x;
      }
    }
  }

  /** Trailing whitespace of a concatenation comes from its last non-blank part. */
  lemma {:induction false} TrimEndAppend(x: string, y: string)
    ensures !Blank(y) ==> TrimEnd(x + y) == x + TrimEnd(y)
    ensures Blank(y) ==> TrimEnd(x + y) == TrimEnd(x)
    decreases |y|
  {
    if y == [] {
      assert x + y == x;
    } else {
      BlankSnoc(y);
      var n := |y| - 1;
      var xy := x + y;
      assert xy[|xy| - 1] == y[n];
      assert xy[..|xy| - 1] == x + y[..n];
      if IsSpace(y[n]) {
        TrimEndAppend(x, y[..n]);
        assert TrimEnd(xy) == TrimEnd(x + y[..n]);
        assert TrimEnd(y) == TrimEnd(y[..n]);
      } else {
        assert TrimEnd(xy) == xy;
        assert TrimEnd(y) == y;
      }
    }
  }

  /** Trimming ignores a blank part at either end of a concatenation... */
  lemma TrimBlankSuffix(x: string, u: string)
    requires Blank(u)
    ensures Trim(x + u) == Trim(x)
  {
    TrimStartAppend(x, u);
    if Blank(x) {
      BlankAppend(x, u);
    } else {
      TrimEndAppend(TrimStart(x), u);
    }
  }

  lemma TrimBlankPrefix(u: string, x: string)
    requires Blank(u)
    ensures Trim(u + x) == Trim(x)
  {
    TrimStartAppend(u, x);
  }

  /** ...and around a middle part between two non-blank parts it trims only the outer
      ends. */
  lemma TrimAround(x: string, m: string, y: string)
    requires !Blank(x) && !Blank(y)
    ensures Trim(x + m + y) == TrimStart(x) + m + TrimEnd(y)
  {
    var t := TrimStart(x);
    assert x + m + y == x + (m + y);
    TrimStartAppend(x, m + y);
    assert t + (m + y) == (t + m) + y;
    TrimEndAppend(t + m, y);
  }

  // ---------------------------------------------------------------------------
  // includes()

  /** `s.includes(t)`: a prefix, so also the empty text, is included, and nothing
      longer than `s` is. */
  predicate Includes(s: string, t: string)
    ensures t <= s ==> Includes(s, t)
    ensures Includes(s, t) ==> |t| <= |s|
    decreases |s|
  {
    t <= s || (s != [] && Includes(s[1..], t))
  }

  /** `field?.toLowerCase().includes(term)`: false when the field is missing. */
  predicate FieldHas(h: Host, field: Option<string>, term: string)
    ensures field.None? ==> !FieldHas(h, field, term)
    ensures field.Some? ==> (FieldHas(h, field, term) <==> Includes(h.lower(field.value), term))
  {
    field.Some? && Includes(h.lower(field.value), term)
  }

  /** `t` occurs in `s` starting at position `i`. */
  predicate OccursAt(s: string, t: string, i: int) {
    0 <= i && i + |t| <= |s| && s[i..i + |t|] == t
  }

  /** `includes` holds exactly when the text occurs at some position. */
  lemma {:induction false} IncludesIff(s: string, t: string)
    ensures Includes(s, t) <==> exists i :: OccursAt(s, t, i)
    decreases |s|
  {
    assert OccursAt(s, t, 0) <==> t <= s by {
      if |t| <= |s| { assert s[0..|t|] == s[..|t|]; }
    }
    if t <= s {
      assert OccursAt(s, t, 0);
    } else if s == [] {
      assert forall i :: !OccursAt(s, t, i);
    } else {
      IncludesIff(s[1..], t);
      if exists i :: OccursAt(s[1..], t, i) {
        var i :| OccursAt(s[1..], t, i);
        assert s[1..][i..i + |t|] == s[i + 1..i + 1 + |t|];
        assert OccursAt(s, t, i + 1);
      }
      if exists i :: OccursAt(s, t, i) {
        var i :| OccursAt(s, t, i);
        assert i != 0;
        assert s[1..][i - 1..i - 1 + |t|] == s[i..i + |t|];
        assert OccursAt(s[1..], t, i - 1);
      }
    }
  }

  // ---------------------------------------------------------------------------
  // split(sep) and join(sep)

  /** `s.split(sep)` for a one-character separator. */
  function Split(s: string, sep: char): (parts: seq<string>)
    ensures |parts| >= 1
    ensures forall k | 0 <= k < |parts| :: sep !in parts[k]
    decreases |s|
  {
    if s == [] then [""]
    else
      var rest := Split(s[1..], sep);
      if s[0] == sep then [""] + rest
      else [[s[0]] + rest[0]] + rest[1..]
  }

  /** `parts.join(sep)`: it starts with the first part. */
  function Join(parts: seq<string>, sep: char): (r: string)
    ensures parts == [] ==> r == ""
    ensures parts != [] ==> parts[0] <= r
    decreases |parts|
  {
    if parts == [] then ""
    else if |parts| == 1 then parts[0]
    else parts[0] + [sep] + Join(parts[1..], sep)
  }

  lemma JoinCons(w: string, rest: seq<string>, sep: char)
    requires |rest| >= 1
    ensures Join([w] + rest, sep) == w + [sep] + Join(rest, sep)
  {
    assert ([w] + rest)[1..] == rest;
  }

  lemma {:induction false} JoinExtendFirst(c: char, rest: seq<string>, sep: char)
    requires |rest| >= 1
    ensures Join([[c] + rest[0]] + rest[1..], sep) == [c] + Join(rest, sep)
  {
    var parts := [[c] + rest[0]] + rest[1..];
    if |rest| == 1 {
      assert parts == [[c] + rest[0]];
    } else {
      assert parts[1..] == rest[1..];
      assert Join(rest, sep) == rest[0] + [sep] + Join(rest[1..], sep);
    }
  }

  /** Joining the pieces of a split with the same separator gives back the text. */
  lemma {:induction false} JoinSplit(s: string, sep: char)
    ensures Join(Split(s, sep), sep) == s
    decreases |s|
  {
    if s != [] {
      var rest := Split(s[1..], sep);
      JoinSplit(s[1..], sep);
      if s[0] == sep {
        JoinCons("", rest, sep);
        assert s == [sep] + s[1..];
      } else {
        JoinExtendFirst(s[0], rest, sep);
        assert s == [s[0]] + s[1..];
      }
    }
  }
}
