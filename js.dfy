/** The JavaScript values and built-in string operations the site's code relies on:
    `Number(...)`, `Number.isInteger`, truthiness, `String(n)` for integers,
    `String.prototype.trim`, `split` on one character and `Array.prototype.join`. */
module Js {

  /** A JavaScript property that may be absent: `None` stands for a missing key (or `undefined`). */
  datatype Option<T> = None | Some(value: T) {
    /** `x ?? d` and `x || d` for a value whose only falsy form is absence. */
    function GetOr(default: T): T {
      if Some? then value else default
    }

    /** The field of `{...this, ...update}`: the update's value wins when it has the key. */
    function OverriddenBy(update: Option<T>): (r: Option<T>)
      ensures update.Some? ==> r == update
      ensures update.None? ==> r == this
    {
      if update.Some? then update else this
    }
  }

  /** The result of `Number(...)`: an integer, or any other double (a fraction, NaN or an infinity). */
  datatype Number = Int(value: int) | NonInteger

  /** A JavaScript scalar as it occurs in ids and id lists: a number or a string. */
  datatype Scalar = Num(n: Number) | Str(s: string)

  /** `Number(s)` on a string. JavaScript's numeric-literal grammar is not modelled: the
      conversion is a parameter of every operation that performs it. */
  type NumberParse = string -> Number

  /** The model's assumption about `Number(...)`: the decimal numeral of an integer reads back
      as that integer. A JavaScript number is a double, so this holds only for integers of
      magnitude below 2^53; the model's integers are unbounded. */
  ghost predicate ParsesDecimals(parse: NumberParse) {
    forall n: int {:trigger DecimalString(n)} :: parse(DecimalString(n)) == Int(n)
  }

  /** `String(x)` on a number. Only integers have a text the model fixes; the conversion is a
      parameter, like `Number(...)`. */
  type NumberFormat = Number -> string

  /** The model's assumption about `String(...)`: an integer prints as its decimal numeral.
      A JavaScript engine does so only below 10^21 in magnitude (larger ones print in exponent
      notation) and only for integers it can hold exactly, below 2^53. */
  ghost predicate FormatsDecimals(format: NumberFormat) {
    forall n: int {:trigger format(Int(n))} :: format(Int(n)) == DecimalString(n)
  }

  /** `String(v)`. */
  function ScalarText(v: Scalar, format: NumberFormat): (r: string)
    ensures v.Str? ==> r == v.s
    ensures FormatsDecimals(format) && v.Num? && v.n.Int? ==> r == DecimalString(v.n.value)
  {
    match v
    case Num(n) => format(n)
    case Str(s) => s
  }

  /** `Number(v)`. */
  function ToNumber(v: Scalar, parse: NumberParse): (r: Number)
    ensures v.Num? ==> r == v.n
  {
    match v
    case Num(n) => n
    case Str(s) => parse(s)
  }

  function IntScalar(i: int): Scalar {
    Num(Int(i))
  }

  /** Boolean coercion of a scalar; a non-integer number stands for a non-zero one (ids are never NaN). */
  predicate Truthy(v: Scalar) {
    match v
    case Num(Int(i)) => i != 0
    case Num(NonInteger) => true
    case Str(s) => s != ""
  }

  /** Boolean coercion of a property that may be missing. */
  predicate TruthyField(v: Option<Scalar>) {
    v.Some? && Truthy(v.value)
  }

  // ---- String(n) for an integer ----

  function DigitChar(d: nat): (c: char)
    requires d < 10
    ensures '0' <= c <= '9'
  {
    (d + '0' as int) as char
  }

  function Digits(n: nat): (r: string)
    ensures |r| > 0
    ensures forall i :: 0 <= i < |r| ==> '0' <= r[i] <= '9'
    decreases n
  {
    if n < 10 then [DigitChar(n)] else Digits(n / 10) + [DigitChar(n % 10)]
  }

  /** `String(n)` for an integer `n` (the decimal form without exponent). */
  function DecimalString(n: int): (r: string)
    ensures |r| > 0
    ensures forall i :: 0 <= i < |r| ==> r[i] == '-' || '0' <= r[i] <= '9'
  {
    if n < 0 then "-" + Digits(-n) else Digits(n)
  }

  function DecimalStrings(ns: seq<int>): (r: seq<string>)
    ensures |r| == |ns|
    ensures forall i :: 0 <= i < |ns| ==> r[i] == DecimalString(ns[i])
  {
    if ns == [] then [] else [DecimalString(ns[0])] + DecimalStrings(ns[1..])
  }

  /** The number of UTF-16 code units of `s`, which is what `s.length` counts. */
  function Utf16Length(s: string): (n: nat)
    ensures |s| <= n <= 2 * |s|
    ensures |s| == 1 ==> n == (if s[0] as int >= 0x1_0000 then 2 else 1)
    ensures (forall i :: 0 <= i < |s| ==> s[i] as int < 0x1_0000) ==> n == |s|
  {
    if s == [] then 0 else (if s[0] as int >= 0x1_0000 then 2 else 1) + Utf16Length(s[1..])
  }

  /** Lengths add up over concatenation: a character outside the Basic Multilingual Plane
      counts two units wherever it stands. */
  lemma {:induction false} Utf16LengthAppend(a: string, b: string)
    ensures Utf16Length(a + b) == Utf16Length(a) + Utf16Length(b)
    decreases |a|
  {
    if a != [] {
      assert (a + b)[1..] == a[1..] + b;
      Utf16LengthAppend(a[1..], b);
    } else {
      assert a + b == b;
    }
  }

  // ---- trim ----

  /** The characters `String.prototype.trim` removes: ECMAScript WhiteSpace and LineTerminator. */
  predicate IsWhitespace(c: char) {
    var n := c as int;
    n == 0x09 || n == 0x0A || n == 0x0B || n == 0x0C || n == 0x0D || n == 0x20 || n == 0xA0 ||
    n == 0x1680 || (0x2000 <= n <= 0x200A) || n == 0x2028 || n == 0x2029 || n == 0x202F ||
    n == 0x205F || n == 0x3000 || n == 0xFEFF
  }

  /** A string that neither starts nor ends with whitespace. */
  predicate Trimmed(s: string) {
    s == [] || (!IsWhitespace(s[0]) && !IsWhitespace(s[|s| - 1]))
  }

  function TrimStart(s: string): (r: string)
    ensures |r| <= |s| && r == s[|s| - |r|..]
    ensures r == [] || !IsWhitespace(r[0])
  {
    if s != [] && IsWhitespace(s[0]) then TrimStart(s[1..]) else s
  }

  function TrimEnd(s: string): (r: string)
    ensures |r| <= |s| && r == s[..|r|]
    ensures r == [] || !IsWhitespace(r[|r| - 1])
  {
    if s != [] && IsWhitespace(s[|s| - 1]) then TrimEnd(s[..|s| - 1]) else s
  }

  /** `s.trim()`. */
  function Trim(s: string): (r: string)
    ensures Trimmed(r)
    ensures |r| <= |s|
    ensures Trimmed(s) ==> r == s
  {
    var t := TrimStart(s);
    assert Trimmed(s) ==> t == s;
    TrimEnd(t)
  }

  /** A string made of whitespace only. */
  predicate Blank(s: string)
    decreases |s|
  {
    s == [] || (IsWhitespace(s[0]) && Blank(s[1..]))
  }

  /** `trim` removes whitespace only: what it drops from the front and from the back is
      blank, and what it keeps is a contiguous slice of `s` that neither starts nor ends with
      whitespace. */
  lemma TrimStrips(s: string)
    ensures exists i, j {:trigger s[i..j]} ::
      0 <= i <= j <= |s| && Trim(s) == s[i..j] && Blank(s[..i]) && Blank(s[j..])
  {
    var t := TrimStart(s);
    var u := TrimEnd(t);
    var i := |s| - |t|;
    var j := i + |u|;
    TrimStartSkips(s);
    TrimEndSkips(t);
    assert s[j..] == t[|u|..];
    assert u == t[..|u|] == s[i..j];
  }

  lemma {:induction false} TrimStartSkips(s: string)
    ensures Blank(s[..|s| - |TrimStart(s)|])
    decreases |s|
  {
    if s != [] && IsWhitespace(s[0]) {
      TrimStartSkips(s[1..]);
      var n := |s| - |TrimStart(s)|;
      assert s[..n][1..] == s[1..][..n - 1];
    } else {
      assert s[..0] == [];
    }
  }

  lemma {:induction false} TrimEndSkips(s: string)
    ensures Blank(s[|TrimEnd(s)|..])
    decreases |s|
  {
    if s != [] && IsWhitespace(s[|s| - 1]) {
      var init := s[..|s| - 1];
      TrimEndSkips(init);
      var m := |TrimEnd(init)|;
      BlankSnoc(init[m..], s[|s| - 1]);
      assert s[m..] == init[m..] + [s[|s| - 1]];
    } else {
      assert s[|s|..] == [];
    }
  }

  lemma {:induction false} BlankSnoc(a: string, c: char)
    requires Blank(a) && IsWhitespace(c)
    ensures Blank(a + [c])
    decreases |a|
  {
    if a == [] {
      assert a + [c] == [c];
      assert [c][1..] == [];
    } else {
      BlankSnoc(a[1..], c);
      assert (a + [c])[1..] == a[1..] + [c];
    }
  }

  lemma {:induction false} TrimEndSuffix(s: string)
    requires s == [] || !IsWhitespace(s[0])
    ensures TrimEnd(s) == [] || !IsWhitespace(TrimEnd(s)[0])
    ensures TrimEnd(s) == [] ==> forall i :: 0 <= i < |s| ==> IsWhitespace(s[i])
    decreases |s|
  {
    if s != [] && IsWhitespace(s[|s| - 1]) {
      TrimEndSuffix(s[..|s| - 1]);
    }
  }

  /** Leading whitespace does not survive `trim`: removing it first changes nothing. */
  lemma {:induction false} TrimDropsLeadingSpace(x: string)
    requires Trimmed(x)
    ensures Trim(" " + x) == x
  {
    assert (" " + x)[1..] == x;
    assert TrimStart(" " + x) == TrimStart(x);
    if x != [] {
      assert TrimStart(x) == x;
    }
  }

  // ---- split and join ----

  /** `s.split(sep)` for a one-character separator: never empty, one piece more than separators. */
  function Split(s: string, sep: char): (r: seq<string>)
    ensures |r| >= 1
    ensures forall i :: 0 <= i < |r| ==> sep !in r[i]
  {
    if s == [] then [""]
    else
      var rest := Split(s[1..], sep);
      if s[0] == sep then [""] + rest else [[s[0]] + rest[0]] + rest[1..]
  }

  /** Splitting at a separator that was put between two strings splits each of them apart. */
  lemma {:induction false} SplitAppend(a: string, b: string, sep: char)
    ensures Split(a + [sep] + b, sep) == Split(a, sep) + Split(b, sep)
    decreases |a|
  {
    if a == [] {
      assert a + [sep] + b == [sep] + b;
      assert ([sep] + b)[1..] == b;
    } else {
      assert (a + [sep] + b)[1..] == a[1..] + [sep] + b;
      SplitAppend(a[1..], b, sep);
      if a[0] != sep {
        var rest := Split(a[1..], sep) + Split(b, sep);
        assert rest[0] == Split(a[1..], sep)[0];
        assert rest[1..] == Split(a[1..], sep)[1..] + Split(b, sep);
      }
    }
  }

  /** A string without the separator splits into itself alone. */
  lemma SplitPiece(p: string, sep: char)
    requires sep !in p
    ensures Split(p, sep) == [p]
  {
    SplitPrefix(p, "", sep);
    assert p + "" == p;
  }

  /** `xs.join(sep)`. */
  function Join(xs: seq<string>, sep: string): string {
    if xs == [] then ""
    else if |xs| == 1 then xs[0]
    else xs[0] + sep + Join(xs[1..], sep)
  }

  lemma {:induction false} SplitPrefix(a: string, t: string, sep: char)
    requires sep !in a
    ensures Split(a + t, sep) == [a + Split(t, sep)[0]] + Split(t, sep)[1..]
    decreases |a|
  {
    if a != [] {
      assert (a + t)[1..] == a[1..] + t;
      SplitPrefix(a[1..], t, sep);
      assert [a[0]] + (a[1..] + Split(t, sep)[0]) == a + Split(t, sep)[0];
    } else {
      assert a + t == t;
      assert a + Split(t, sep)[0] == Split(t, sep)[0];
      assert Split(t, sep) == [Split(t, sep)[0]] + Split(t, sep)[1..];
    }
  }

  /** Splitting what `join` built gives back the pieces, when no piece holds the separator. */
  lemma {:induction false} SplitJoin(xs: seq<string>, sep: char)
    requires |xs| >= 1
    requires forall i :: 0 <= i < |xs| ==> sep !in xs[i]
    ensures Split(Join(xs, [sep]), sep) == xs
    decreases |xs|
  {
    if |xs| == 1 {
      SplitPrefix(xs[0], "", sep);
      assert xs[0] + "" == xs[0];
    } else {
      var t := [sep] + Join(xs[1..], [sep]);
      assert Join(xs, [sep]) == xs[0] + t;
      SplitPrefix(xs[0], t, sep);
      SplitJoin(xs[1..], sep);
      assert t[1..] == Join(xs[1..], [sep]);
      assert Split(t, sep) == [""] + xs[1..];
      assert xs[0] + "" == xs[0];
      assert xs == [xs[0]] + xs[1..];
    }
  }

  /** `", "` is `","` followed by a space that `trim` removes again. */
  lemma {:induction false} JoinCommaSpace(xs: seq<string>)
    requires |xs| >= 1
    ensures Join(xs, ", ") == Join([xs[0]] + SpacePrefixed(xs[1..]), ",")
    decreases |xs|
  {
    if |xs| > 1 {
      JoinCommaSpace(xs[1..]);
      var ys := [xs[0]] + SpacePrefixed(xs[1..]);
      assert ys[1..] == [" " + xs[1]] + SpacePrefixed(xs[2..]);
      assert Join(ys[1..], ",") == " " + Join(xs[1..], ", ");
    }
  }

  function SpacePrefixed(xs: seq<string>): (r: seq<string>)
    ensures |r| == |xs|
    ensures forall i :: 0 <= i < |xs| ==> r[i] == " " + xs[i]
  {
    if xs == [] then [] else [" " + xs[0]] + SpacePrefixed(xs[1..])
  }

  // ---- value.split(',').map((item) => item.trim()).filter(Boolean) ----

  function TrimAll(xs: seq<string>): (r: seq<string>)
    ensures |r| == |xs|
    ensures forall i :: 0 <= i < |xs| ==> r[i] == Trim(xs[i])
  {
    if xs == [] then [] else [Trim(xs[0])] + TrimAll(xs[1..])
  }

  function NonEmpty(xs: seq<string>): (r: seq<string>)
    ensures forall x :: x in r <==> x in xs && x != ""
    ensures (forall i :: 0 <= i < |xs| ==> xs[i] != "") ==> r == xs
  {
    if xs == [] then [] else (if xs[0] != "" then [xs[0]] else []) + NonEmpty(xs[1..])
  }

  lemma {:induction false} TrimAllAppend(xs: seq<string>, ys: seq<string>)
    ensures TrimAll(xs + ys) == TrimAll(xs) + TrimAll(ys)
  {
  }

  lemma {:induction false} NonEmptyAppend(xs: seq<string>, ys: seq<string>)
    ensures NonEmpty(xs + ys) == NonEmpty(xs) + NonEmpty(ys)
    decreases |xs|
  {
    if xs == [] {
      assert xs + ys == ys;
    } else {
      assert (xs + ys)[1..] == xs[1..] + ys;
      NonEmptyAppend(xs[1..], ys);
    }
  }

  /** A comma-separated form field read as a list: split on `,`, trim every piece, drop empty ones. */
  function CommaList(value: string): (r: seq<string>)
    ensures forall x :: x in r ==> x != "" && Trimmed(x) && ',' !in x
  {
    var pieces := TrimAll(Split(value, ','));
    TrimAllKeepsOut(Split(value, ','), ',');
    NonEmpty(pieces)
  }

  /** The list holds exactly the non-empty trimmed pieces between the commas. */
  lemma CommaListMembers(value: string)
    ensures forall x :: x in CommaList(value) <==>
      x != "" && exists p :: p in Split(value, ',') && Trim(p) == x
  {
    var pieces := Split(value, ',');
    forall x | x != "" && (exists p :: p in pieces && Trim(p) == x) ensures x in TrimAll(pieces) {
      var p :| p in pieces && Trim(p) == x;
      var i :| 0 <= i < |pieces| && pieces[i] == p;
      assert TrimAll(pieces)[i] == x;
    }
  }

  /** Reading `a,b` gives the list read from `a` followed by the list read from `b`: the pieces
      keep the order, and repetitions, of the text. */
  lemma CommaListAppend(a: string, b: string)
    ensures CommaList(a + "," + b) == CommaList(a) + CommaList(b)
  {
    SplitAppend(a, b, ',');
    TrimAllAppend(Split(a, ','), Split(b, ','));
    NonEmptyAppend(TrimAll(Split(a, ',')), TrimAll(Split(b, ',')));
  }

  /** A text without commas reads as its trimmed self, or as nothing when that is empty. */
  lemma CommaListPiece(p: string)
    requires ',' !in p
    ensures CommaList(p) == (if Trim(p) == "" then [] else [Trim(p)])
  {
    SplitPiece(p, ',');
    assert TrimAll([p]) == [Trim(p)];
  }

  lemma TrimAllKeepsOut(xs: seq<string>, c: char)
    requires forall i :: 0 <= i < |xs| ==> c !in xs[i]
    ensures forall x :: x in TrimAll(xs) ==> Trimmed(x) && c !in x
  {
    forall i | 0 <= i < |xs| ensures c !in TrimAll(xs)[i] {
      TrimKeepsOut(xs[i], c);
    }
  }

  lemma TrimKeepsOut(s: string, c: char)
    requires c !in s
    ensures c !in Trim(s)
  {
    var t := TrimStart(s);
    assert c !in t by {
      assert t == s[|s| - |t|..];
    }
    var u := TrimEnd(t);
    assert u == t[..|u|];
  }

  /** A list a form shows as `xs.join(', ')` reads back as `xs`, when every element is
      non-empty, trimmed and free of commas. */
  lemma {:induction false} CommaListOfJoin(xs: seq<string>)
    requires forall i :: 0 <= i < |xs| ==> xs[i] != "" && Trimmed(xs[i]) && ',' !in xs[i]
    ensures CommaList(Join(xs, ", ")) == xs
  {
    if xs == [] {
      assert Split("", ',') == [""];
      assert TrimAll([""]) == [""];
    } else {
      var ys := [xs[0]] + SpacePrefixed(xs[1..]);
      JoinCommaSpace(xs);
      assert forall i :: 0 <= i < |ys| ==> ',' !in ys[i];
      SplitJoin(ys, ',');
      assert TrimAll(ys) == xs by {
        forall i | 0 <= i < |ys| ensures TrimAll(ys)[i] == xs[i] {
          if i > 0 {
            TrimDropsLeadingSpace(xs[i]);
          }
        }
      }
    }
  }
}
