/**
 * The `@` reference scanner (crates/app/src/extensions.rs): bare `@word` tokens,
 * and `@"..."` tokens whose quoted part is a JSON string (section 7 of RFC 8259).
 */
module AtRefs {
  import opened Common

  datatype AtRef = Fuzzy(text: string) | Exact(path: string)

  // ------------------------------------------------------------- printing JSON strings

  function HexDigit(n: nat): char
    requires n < 16
  {
    "0123456789abcdef"[n]
  }

  /** The compact printer's form of one character inside a string. */
  function EscapeChar(c: char): string {
    if c == '\"' then "\\\""
    else if c == '\\' then "\\\\"
    else if c == '\U{08}' then "\\b"
    else if c == '\U{0C}' then "\\f"
    else if c == '\n' then "\\n"
    else if c == '\r' then "\\r"
    else if c == '\t' then "\\t"
    else if c < ' ' then "\\u00" + [HexDigit(c as int / 16), HexDigit(c as int % 16)]
    else [c]
  }

  function EscapeAll(p: string): string {
    if p == "" then "" else EscapeChar(p[0]) + EscapeAll(p[1..])
  }

  function JsonString(p: string): string {
    "\"" + EscapeAll(p) + "\""
  }

  // -------------------------------------------------------------- reading JSON strings

  function HexValue(c: char): (r: Option<nat>)
    ensures r.Some? ==> r.value < 16
  {
    if '0' <= c <= '9' then Some(c as int - '0' as int)
    else if 'a' <= c <= 'f' then Some(c as int - 'a' as int + 10)
    else if 'A' <= c <= 'F' then Some(c as int - 'A' as int + 10)
    else None
  }

  /** The four hex digits of a `\u` escape. */
  function Hex4(s: string): (r: Option<nat>)
    ensures r.Some? ==> |s| >= 4 && r.value < 0x1_0000
  {
    if |s| < 4 then None
    else
      match (HexValue(s[0]), HexValue(s[1]), HexValue(s[2]), HexValue(s[3]))
      case (Some(a), Some(b), Some(c), Some(d)) => Some(a * 4096 + b * 256 + c * 16 + d)
      case _ => None
  }

  /** A code unit outside the surrogates is a character by itself. */
  predicate Surrogate(n: nat) {
    0xD800 <= n < 0xE000
  }

  function Joined(high: nat, low: nat): (r: nat)
    requires 0xD800 <= high < 0xDC00 && 0xDC00 <= low < 0xE000
    ensures 0x1_0000 <= r < 0x11_0000
  {
    0x1_0000 + (high - 0xD800) * 0x400 + (low - 0xDC00)
  }

  /** One escape after the backslash: its character and how much of `s` it takes. */
  function TakeEscape(s: string): (r: Option<(char, nat)>)
    ensures r.Some? ==> 1 <= r.value.1 <= |s|
  {
    if s == "" then None
    else if s[0] == '\"' then Some(('\"', 1))
    else if s[0] == '\\' then Some(('\\', 1))
    else if s[0] == '/' then Some(('/', 1))
    else if s[0] == 'b' then Some(('\U{08}', 1))
    else if s[0] == 'f' then Some(('\U{0C}', 1))
    else if s[0] == 'n' then Some(('\n', 1))
    else if s[0] == 'r' then Some(('\r', 1))
    else if s[0] == 't' then Some(('\t', 1))
    else if s[0] == 'u' then
      var first := Hex4(s[1..]);
      if first.None? then None
      else if !Surrogate(first.value) then Some((first.value as char, 5))
      else if first.value >= 0xDC00 || |s| < 7 || s[5] != '\\' || s[6] != 'u' then None
      else
        var second := Hex4(s[7..]);
        if second.None? || !(0xDC00 <= second.value < 0xE000) then None
        else Some((Joined(first.value, second.value) as char, 11))
    else None
  }

  /** The character that `s` spells next, and how much of `s` that takes. */
  function TakeChar(s: string): (r: Option<(char, nat)>)
    requires s != ""
    ensures r.Some? ==> 1 <= r.value.1 <= |s|
  {
    if s[0] == '\\' then
      var escape := TakeEscape(s[1..]);
      if escape.None? then None else Some((escape.value.0, 1 + escape.value.1))
    else if s[0] < ' ' then None
    else Some((s[0], 1))
  }

  /** The rest of a string literal after its opening quote: the text, and how much it takes. */
  function TakeBody(s: string): (r: Option<(string, nat)>)
    ensures r.Some? ==> 1 <= r.value.1 <= |s|
    decreases |s|
  {
    hide TakeChar;
    if s == "" then None
    else if s[0] == '\"' then Some(("", 1))
    else
      var first := TakeChar(s);
      if first.None? then None
      else
        var rest := TakeBody(s[first.value.1..]);
        if rest.None? then None
        else Some(([first.value.0] + rest.value.0, first.value.1 + rest.value.1))
  }

  /** The JSON string that `input` begins with, if it does, and where it ends. */
  function TakeJsonString(input: string): (r: Option<(string, nat)>)
    ensures r.Some? ==> 2 <= r.value.1 <= |input|
  {
    if input == "" || input[0] != '\"' then None
    else
      var body := TakeBody(input[1..]);
      if body.None? then None else Some((body.value.0, 1 + body.value.1))
  }

  // ------------------------------------------------------ what a JSON string is, and means

  /** One character of a string literal, as section 7 of RFC 8259 lets it be written. */
  datatype Piece =
    | Plain(c: char)
    | Short(letter: char)
    | Unit(digits: string)                       // \uXXXX, outside the surrogates
    | Couple(high: string, low: string)          // \uXXXX\uXXXX, a surrogate pair

  const SHORT_LETTERS := "\"\\/bfnrt"

  const LOWER_DIGITS := "0123456789abcdef"
  const UPPER_DIGITS := "0123456789ABCDEF"

  /** The digit `c` has value `v`, in either case. */
  predicate DigitIs(c: char, v: nat) {
    v < 16 && (LOWER_DIGITS[v] == c || UPPER_DIGITS[v] == c)
  }

  predicate IsDigit(c: char) {
    exists v: nat | v < 16 :: DigitIs(c, v)
  }

  predicate HexDigits(s: string) {
    |s| == 4 && forall i | 0 <= i < 4 :: IsDigit(s[i])
  }

  function DigitOf(c: char): (v: nat)
    requires IsDigit(c)
    ensures DigitIs(c, v)
  {
    DigitIsUnique(c);
    var v: nat :| v < 16 && DigitIs(c, v);
    v
  }

  lemma DigitIsUnique(c: char)
    ensures forall v: nat, w: nat | DigitIs(c, v) && DigitIs(c, w) :: v == w
  {
  }

  /** The reader knows exactly these digits. */
  lemma HexValueIs(c: char)
    ensures HexValue(c).Some? <==> IsDigit(c)
    ensures IsDigit(c) ==> HexValue(c) == Some(DigitOf(c))
  {
    if HexValue(c).Some? { assert DigitIs(c, HexValue(c).value); }
    if IsDigit(c) {
      var v := DigitOf(c);
      assert HexValue(LOWER_DIGITS[v]) == Some(v) && HexValue(UPPER_DIGITS[v]) == Some(v);
    }
  }

  function Digits(s: string): (n: nat)
    requires HexDigits(s)
    ensures n < 0x1_0000
  {
    ((DigitOf(s[0]) * 16 + DigitOf(s[1])) * 16 + DigitOf(s[2])) * 16 + DigitOf(s[3])
  }

  predicate ValidPiece(p: Piece) {
    match p
    case Plain(c) => c >= ' ' && c != '\"' && c != '\\'
    case Short(letter) => letter in SHORT_LETTERS
    case Unit(digits) => HexDigits(digits) && !(0xD800 <= Digits(digits) < 0xE000)
    case Couple(high, low) =>
      && HexDigits(high) && HexDigits(low)
      && 0xD800 <= Digits(high) < 0xDC00 && 0xDC00 <= Digits(low) < 0xE000
  }

  function Written(p: Piece): string {
    match p
    case Plain(c) => [c]
    case Short(letter) => "\\" + [letter]
    case Unit(digits) => "\\u" + digits
    case Couple(high, low) => "\\u" + high + "\\u" + low
  }

  function Meaning(p: Piece): char
    requires ValidPiece(p)
  {
    match p
    case Plain(c) => c
    case Short(letter) =>
      if letter == 'b' then '\U{08}'
      else if letter == 'f' then '\U{0C}'
      else if letter == 'n' then '\n'
      else if letter == 'r' then '\r'
      else if letter == 't' then '\t'
      else letter
    case Unit(digits) => Digits(digits) as char
    case Couple(high, low) => (0x1_0000 + (Digits(high) - 0xD800) * 0x400 + (Digits(low) - 0xDC00)) as char
  }

  predicate ValidPieces(q: seq<Piece>) {
    forall i | 0 <= i < |q| :: ValidPiece(q[i])
  }

  function WrittenAll(q: seq<Piece>): string {
    if q == [] then "" else Written(q[0]) + WrittenAll(q[1..])
  }

  function MeaningAll(q: seq<Piece>): string
    requires ValidPieces(q)
  {
    if q == [] then "" else [Meaning(q[0])] + MeaningAll(q[1..])
  }

  /** The first `n` characters of `input` are a JSON string that means `p`. */
  ghost predicate Spells(input: string, p: string, n: nat) {
    exists q: seq<Piece> :: SpelledBy(input, p, n, q)
  }

  ghost predicate SpelledBy(input: string, p: string, n: nat, q: seq<Piece>) {
    && ValidPieces(q) && n <= |input|
    && input[..n] == "\"" + WrittenAll(q) + "\"" && p == MeaningAll(q)
  }

  lemma HexFour(s: string, tail: string)
    requires HexDigits(s)
    ensures Hex4(s + tail) == Some(Digits(s))
  {
    hide IsDigit, DigitIs, HexValue;
    HexValueIs(s[0]);
    HexValueIs(s[1]);
    HexValueIs(s[2]);
    HexValueIs(s[3]);
    var t := s + tail;
    assert t[0] == s[0] && t[1] == s[1] && t[2] == s[2] && t[3] == s[3];
  }

  lemma HexFourSound(s: string)
    requires Hex4(s).Some?
    ensures |s| >= 4 && HexDigits(s[..4]) && Digits(s[..4]) == Hex4(s).value
  {
    hide IsDigit, DigitIs, HexValue;
    HexValueIs(s[0]);
    HexValueIs(s[1]);
    HexValueIs(s[2]);
    HexValueIs(s[3]);
    var t := s[..4];
    assert t[0] == s[0] && t[1] == s[1] && t[2] == s[2] && t[3] == s[3];
  }

  lemma ShortIsTaken(letter: char, tail: string)
    requires ValidPiece(Short(letter))
    ensures TakeEscape([letter] + tail) == Some((Meaning(Short(letter)), 1))
  {
    hide Hex4;
    assert ([letter] + tail)[0] == letter;
  }

  lemma UnitIsTaken(digits: string, tail: string)
    requires ValidPiece(Unit(digits))
    ensures TakeEscape("u" + digits + tail) == Some((Meaning(Unit(digits)), 5))
  {
    hide Hex4, Digits, HexDigits, IsDigit, DigitIs, HexValue;
    var s := "u" + digits + tail;
    assert s[1..] == digits + tail;
    HexFour(digits, tail);
  }

  lemma CoupleLayout(high: string, low: string, tail: string)
    requires |high| == 4
    ensures var s := "u" + high + "\\u" + low + tail;
      && |s| >= 7 && s[0] == 'u' && s[5] == '\\' && s[6] == 'u'
      && s[1..] == high + ("\\u" + low + tail) && s[7..] == low + tail
  {
  }

  lemma CoupleIsTaken(high: string, low: string, tail: string)
    requires ValidPiece(Couple(high, low))
    ensures TakeEscape("u" + high + "\\u" + low + tail) == Some((Meaning(Couple(high, low)), 11))
  {
    assert |high| == 4;
    hide Hex4, Digits, HexDigits, IsDigit, DigitIs, HexValue;
    HexFour(high, "\\u" + low + tail);
    HexFour(low, tail);
    CoupleLayout(high, low, tail);
    TakesCouple("u" + high + "\\u" + low + tail, Digits(high), Digits(low));
  }

  lemma TakesCouple(s: string, high: nat, low: nat)
    requires |s| >= 7 && s[0] == 'u' && s[5] == '\\' && s[6] == 'u'
    requires Hex4(s[1..]) == Some(high) && Hex4(s[7..]) == Some(low)
    requires 0xD800 <= high < 0xDC00 && 0xDC00 <= low < 0xE000
    ensures TakeEscape(s) == Some((Joined(high, low) as char, 11))
  {
    hide Hex4;
  }

  lemma EscapeIsTaken(letters: string, tail: string, c: char)
    requires TakeEscape(letters + tail) == Some((c, |letters|))
    ensures TakeChar("\\" + letters + tail) == Some((c, 1 + |letters|))
  {
    var s := "\\" + letters + tail;
    assert s[1..] == letters + tail;
    hide TakeEscape;
  }

  /** A written piece begins with no quote: it is itself, or a backslash and an escape. */
  lemma WrittenShape(p: Piece)
    requires ValidPiece(p)
    ensures Written(p) != "" && Written(p)[0] != '\"'
    ensures p.Plain? ==> Written(p) == [p.c]
    ensures p.Short? ==> Written(p) == "\\" + [p.letter] && |Written(p)| == 2
    ensures p.Unit? ==> Written(p) == "\\" + ("u" + p.digits) && |Written(p)| == 6
    ensures p.Couple? ==> Written(p) == "\\" + ("u" + p.high + "\\u" + p.low) && |Written(p)| == 12
  {
    hide Digits, Meaning;
  }

  /** A written piece is taken as what it means, and no further. */
  lemma PieceIsTaken(p: Piece, tail: string)
    requires ValidPiece(p)
    ensures TakeChar(Written(p) + tail) == Some((Meaning(p), |Written(p)|))
  {
    WrittenShape(p);
    hide Written, TakeEscape, Digits;
    if p.Plain? {
      assert (Written(p) + tail)[0] == p.c;
    } else if p.Short? {
      ShortIsTaken(p.letter, tail);
      EscapeIsTaken([p.letter], tail, Meaning(p));
    } else if p.Unit? {
      UnitIsTaken(p.digits, tail);
      EscapeIsTaken("u" + p.digits, tail, Meaning(p));
    } else {
      CoupleIsTaken(p.high, p.low, tail);
      EscapeIsTaken("u" + p.high + "\\u" + p.low, tail, Meaning(p));
    }
    hide Meaning, TakeChar;
  }

  /** What is taken as one character is some written piece. */
  lemma TakenIsPiece(s: string) returns (p: Piece)
    requires s != "" && s[0] != '\"' && TakeChar(s).Some?
    ensures ValidPiece(p) && Meaning(p) == TakeChar(s).value.0
    ensures s[..TakeChar(s).value.1] == Written(p)
  {
    hide Hex4, Digits, HexDigits, IsDigit, DigitIs, HexValue;
    if s[0] != '\\' {
      p := Plain(s[0]);
    } else if s[1] != 'u' {
      p := Short(s[1]);
      assert s[..2] == "\\" + [s[1]];
    } else {
      var after := s[1..];
      HexFourSound(after[1..]);
      var high := after[1..][..4];
      assert s[..6] == "\\u" + high;
      if Surrogate(Digits(high)) {
        HexFourSound(after[7..]);
        var low := after[7..][..4];
        p := Couple(high, low);
        assert s[..12] == "\\u" + high + "\\u" + low;
      } else {
        p := Unit(high);
      }
    }
  }

  lemma {:induction false} WrittenBodyIsTaken(q: seq<Piece>, tail: string)
    requires ValidPieces(q)
    ensures TakeBody(WrittenAll(q) + "\"" + tail) == Some((MeaningAll(q), |WrittenAll(q)| + 1))
  {
    if q == [] {
      assert (WrittenAll(q) + "\"" + tail)[0] == '\"';
    } else {
      WrittenBodyIsTaken(q[1..], tail);
      PieceIsTaken(q[0], WrittenAll(q[1..]) + "\"" + tail);
      WrittenShape(q[0]);
      hide *;
      WrittenStep(q);
      Regroup(Written(q[0]), WrittenAll(q[1..]), "\"", tail);
      PrefixOf(Written(q[0]), WrittenAll(q[1..]) + "\"" + tail);
      BodyStep(Written(q[0]) + (WrittenAll(q[1..]) + "\"" + tail), Meaning(q[0]), |Written(q[0])|);
    }
  }

  lemma WrittenStep(q: seq<Piece>)
    requires ValidPieces(q) && q != []
    ensures ValidPiece(q[0]) && ValidPieces(q[1..])
    ensures WrittenAll(q) == Written(q[0]) + WrittenAll(q[1..]) && MeaningAll(q) == [Meaning(q[0])] + MeaningAll(q[1..])
  {
    hide Written, Meaning, ValidPiece;
  }

  lemma PrefixOf(a: string, b: string)
    requires a != ""
    ensures a + b != "" && (a + b)[0] == a[0] && (a + b)[|a|..] == b
  {
  }

  lemma TakenStep(s: string)
    requires TakeBody(s).Some? && s[0] != '\"'
    ensures TakeChar(s).Some? && var (c, n) := TakeChar(s).value;
      && TakeBody(s[n..]).Some?
      && TakeBody(s) == Some(([c] + TakeBody(s[n..]).value.0, n + TakeBody(s[n..]).value.1))
  {
    hide TakeChar;
  }

  lemma {:induction false} TakenBodyIsWritten(s: string) returns (q: seq<Piece>)
    requires TakeBody(s).Some?
    ensures ValidPieces(q) && MeaningAll(q) == TakeBody(s).value.0
    ensures s[..TakeBody(s).value.1] == WrittenAll(q) + "\""
    decreases |s|
  {
    if s[0] == '\"' {
      q := [];
    } else {
      TakenStep(s);
      var n := TakeChar(s).value.1;
      var p := TakenIsPiece(s);
      var rest := TakenBodyIsWritten(s[n..]);
      q := PieceInFront(p, rest);
      hide *;
      Split(s, n, TakeBody(s[n..]).value.1);
    }
  }

  lemma Split(s: string, n: nat, m: nat)
    requires n + m <= |s|
    ensures s[..n + m] == s[..n] + s[n..][..m]
  {
  }

  lemma PieceInFront(p: Piece, rest: seq<Piece>) returns (q: seq<Piece>)
    requires ValidPiece(p) && ValidPieces(rest)
    ensures ValidPieces(q) && MeaningAll(q) == [Meaning(p)] + MeaningAll(rest)
    ensures WrittenAll(q) + "\"" == Written(p) + (WrittenAll(rest) + "\"")
  {
    q := [p] + rest;
    assert q[0] == p && q[1..] == rest;
    hide Written, Meaning, ValidPiece;
  }

  lemma TakenIsSpelled(input: string)
    requires TakeJsonString(input).Some?
    ensures Spells(input, TakeJsonString(input).value.0, TakeJsonString(input).value.1)
  {
    var (p, n) := TakeJsonString(input).value;
    var q := TakenBodyIsWritten(input[1..]);
    hide TakeBody, WrittenAll, MeaningAll, ValidPieces;
    Split(input, 1, n - 1);
    assert input[..1] == "\"";
    Regroup("\"", WrittenAll(q), "\"", "");
    assert SpelledBy(input, p, n, q);
  }

  /**
   * The reader takes exactly what the grammar allows: a text, and how long its literal
   * is, if and only if the input begins with a literal of that length that means it.
   */
  lemma TakesExactlyJsonStrings(input: string, p: string, n: nat)
    ensures TakeJsonString(input) == Some((p, n)) <==> Spells(input, p, n)
  {
    if TakeJsonString(input) == Some((p, n)) { TakenIsSpelled(input); }
    if Spells(input, p, n) {
      var q :| SpelledBy(input, p, n, q);
      SpelledIsTaken(input, p, n, q);
    }
    hide TakeJsonString, SpelledBy;
  }

  lemma SpelledIsTaken(input: string, p: string, n: nat, q: seq<Piece>)
    requires SpelledBy(input, p, n, q)
    ensures TakeJsonString(input) == Some((p, n))
  {
    hide TakeBody, WrittenAll, MeaningAll, ValidPieces;
    var body, tail := WrittenAll(q), input[n..];
    WrittenBodyIsTaken(q, tail);
    var literal := "\"" + body + "\"";
    assert input == literal + tail;
    QuotedText(body, tail);
  }

  lemma QuotedText(body: string, tail: string)
    ensures var input := "\"" + body + "\"" + tail; input[0] == '\"' && input[1..] == body + "\"" + tail
  {
  }

  // --------------------------------------------------------------------- the scanner

  predicate WordChar(c: char) {
    ('a' <= c <= 'z') || ('A' <= c <= 'Z') || ('0' <= c <= '9') || c == '_' || c == '-' || c == '.' || c == '/'
  }

  predicate Trimmed(c: char) {
    c == '.' || c == ',' || c == ';' || c == ':' || c == '/'
  }

  /** Where the first `@` is, or the length. */
  function FindAt(s: string): (i: nat)
    ensures i <= |s| && (i < |s| ==> s[i] == '@') && '@' !in s[..i]
  {
    if s == "" then 0
    else if s[0] == '@' then 0
    else
      var i := FindAt(s[1..]);
      assert s[..i + 1] == [s[0]] + s[1..][..i];
      i + 1
  }

  /** How many word characters `s` begins with. */
  function WordLength(s: string): (n: nat)
    ensures n <= |s| && (forall i | 0 <= i < n :: WordChar(s[i])) && (n < |s| ==> !WordChar(s[n]))
  {
    if s == "" || !WordChar(s[0]) then 0 else 1 + WordLength(s[1..])
  }

  function TrimEnd(s: string): (t: string)
    ensures t <= s && (t != "" ==> !Trimmed(t[|t| - 1])) && forall i | |t| <= i < |s| :: Trimmed(s[i])
  {
    if s != "" && Trimmed(s[|s| - 1]) then TrimEnd(s[..|s| - 1]) else s
  }

  /** What one `@` yields, and what is left of the text behind it. */
  function ScanOne(rest: string): (r: (seq<AtRef>, string))
    ensures |r.1| <= |rest|
  {
    if rest != "" && rest[0] == '\"' then
      var taken := TakeJsonString(rest);
      if taken.None? then ([], rest[1..])
      else if taken.value.0 == "" then ([], rest[taken.value.1..])
      else ([Exact(taken.value.0)], rest[taken.value.1..])
    else
      var n := WordLength(rest);
      var token := TrimEnd(rest[..n]);
      (if token == "" then [] else [Fuzzy(token)], rest[n..])
  }

  function Scan(text: string): seq<AtRef>
    decreases |text|
  {
    var at := FindAt(text);
    if at == |text| then []
    else
      var one := ScanOne(text[at + 1..]);
      one.0 + Scan(one.1)
  }

  lemma ScanStep(text: string)
    requires FindAt(text) < |text|
    ensures var one := ScanOne(text[FindAt(text) + 1..]); Scan(text) == one.0 + Scan(one.1)
  {
  }

  lemma ScanEnd(text: string)
    requires FindAt(text) == |text|
    ensures Scan(text) == []
  {
  }

  /** The loop body behind one `@`: a quoted reference, else a bare one. */
  method TakeReference(text: string) returns (found: seq<AtRef>, rest: string)
    ensures (found, rest) == ScanOne(text)
  {
    hide TakeJsonString, WordLength, TrimEnd;
    found := [];
    rest := text;
    if rest != "" && rest[0] == '\"' {
      var taken := TakeJsonString(rest);
      if taken.Some? {
        rest := rest[taken.value.1..];
        if taken.value.0 != "" {
          found := [Exact(taken.value.0)];
        }
      } else {
        rest := rest[1..];
      }
      return;
    }
    var end := WordLength(rest);
    var token := TrimEnd(rest[..end]);
    rest := rest[end..];
    if token != "" {
      found := [Fuzzy(token)];
    }
  }

  /** The scanning loop. */
  method AtTokens(text: string) returns (tokens: seq<AtRef>)
    ensures tokens == Scan(text)
  {
    hide FindAt, ScanOne, Scan;
    tokens := [];
    var rest := text;
    var at := FindAt(rest);
    while at < |rest|
      invariant at == FindAt(rest)
      invariant tokens + Scan(rest) == Scan(text)
      decreases |rest|
    {
      ScanStep(rest);
      ghost var before, behind := tokens, rest[at + 1..];
      var found: seq<AtRef>;
      found, rest := TakeReference(rest[at + 1..]);
      assert |rest| <= |behind|;
      tokens := tokens + found;
      assert before + (found + Scan(rest)) == tokens + Scan(rest);
      at := FindAt(rest);
    }
    ScanEnd(rest);
  }

  // ---------------------------------------------------------------------- round trips

  lemma HexReads(n: nat)
    requires n < 16
    ensures HexValue(HexDigit(n)) == Some(n)
  {
  }

  /** What a character is printed as spells that character, and reaches as far as it was printed. */
  lemma OneCharReads(c: char, tail: string)
    ensures var s := EscapeChar(c) + tail; var n := |EscapeChar(c)|;
      s != "" && s[0] != '\"' && n <= |s| && s[n..] == tail && TakeChar(s) == Some((c, n))
  {
    EscapeShape(c);
    var s := EscapeChar(c) + tail;
    var n := |EscapeChar(c)|;
    assert s[n..] == tail && s[0] == EscapeChar(c)[0];
    if n == 6 { ControlEscapeReads(c, tail); }
    if n == 2 { ShortEscapeReads(c, tail); }
    hide TakeEscape, EscapeChar;
  }

  lemma BodyStep(s: string, c: char, n: nat)
    requires s != "" && s[0] != '\"' && TakeChar(s) == Some((c, n)) && n <= |s| && TakeBody(s[n..]).Some?
    ensures TakeBody(s) == Some(([c] + TakeBody(s[n..]).value.0, n + TakeBody(s[n..]).value.1))
  {
    hide TakeChar;
  }

  /** Reading one printed character gives it back and leaves what follows. */
  lemma EscapedCharReads(c: char, tail: string)
    requires TakeBody(tail).Some?
    ensures TakeBody(EscapeChar(c) + tail)
      == Some(([c] + TakeBody(tail).value.0, |EscapeChar(c)| + TakeBody(tail).value.1))
  {
    OneCharReads(c, tail);
    hide *;
    BodyStep(EscapeChar(c) + tail, c, |EscapeChar(c)|);
  }

  lemma EscapeShape(c: char)
    ensures var e := EscapeChar(c);
      || (|e| == 1 && e[0] == c && c != '\"' && c != '\\' && c >= ' ')
      || (|e| == 2 && e[0] == '\\')
      || (|e| == 6 && e[0] == '\\' && c < ' ')
  {
  }

  lemma ShortEscapeReads(c: char, tail: string)
    requires |EscapeChar(c)| == 2
    ensures TakeEscape((EscapeChar(c) + tail)[1..]) == Some((c, 1))
  {
    hide Hex4;
    assert (EscapeChar(c) + tail)[1..][0] == EscapeChar(c)[1];
  }

  lemma ControlEscapeReads(c: char, tail: string)
    requires c < ' ' && |EscapeChar(c)| == 6
    ensures TakeEscape((EscapeChar(c) + tail)[1..]) == Some((c, 5))
  {
    var s := (EscapeChar(c) + tail)[1..];
    HexReads(c as int / 16);
    HexReads(c as int % 16);
    assert s[1..][0] == '0' && s[1..][1] == '0';
    assert s[1..][2] == HexDigit(c as int / 16) && s[1..][3] == HexDigit(c as int % 16);
    assert Hex4(s[1..]) == Some(c as int);
  }

  lemma EscapeAllStep(p: string)
    requires p != ""
    ensures EscapeAll(p) == EscapeChar(p[0]) + EscapeAll(p[1..])
  {
    hide EscapeChar;
  }

  /** Reading undoes printing, whatever follows the closing quote. */
  lemma {:induction false} BodyReads(p: string, suffix: string)
    ensures TakeBody(EscapeAll(p) + "\"" + suffix) == Some((p, |EscapeAll(p)| + 1))
  {
    hide *;
    if p == "" {
      EmptyBodyReads(suffix);
    } else {
      BodyReads(p[1..], suffix);
      EscapedCharReads(p[0], EscapeAll(p[1..]) + "\"" + suffix);
      EscapeAllStep(p);
      Regroup(EscapeChar(p[0]), EscapeAll(p[1..]), "\"", suffix);
      assert [p[0]] + p[1..] == p;
    }
  }

  lemma EmptyBodyReads(suffix: string)
    ensures EscapeAll("") == "" && TakeBody("" + "\"" + suffix) == Some(("", 1))
  {
    assert ("" + "\"" + suffix)[0] == '\"';
  }

  lemma Regroup(a: string, b: string, c: string, d: string)
    ensures a + b + c + d == a + (b + c + d)
  {
  }

  lemma JsonStringReads(p: string, suffix: string)
    ensures TakeJsonString(JsonString(p) + suffix) == Some((p, |JsonString(p)|))
  {
    BodyReads(p, suffix);
    assert (JsonString(p) + suffix)[1..] == EscapeAll(p) + "\"" + suffix;
  }

  /** Text before the first `@` is skipped. */
  lemma {:induction false} FindAtSkips(prefix: string, rest: string)
    requires '@' !in prefix
    ensures FindAt(prefix + "@" + rest) == |prefix|
  {
    if prefix == "" {
      assert prefix + "@" + rest == "@" + rest;
    } else {
      assert (prefix + "@" + rest)[1..] == prefix[1..] + "@" + rest;
      FindAtSkips(prefix[1..], rest);
    }
  }

  lemma ScanAfterPrefix(prefix: string, rest: string)
    requires '@' !in prefix
    ensures Scan(prefix + "@" + rest) == ScanOne(rest).0 + Scan(ScanOne(rest).1)
  {
    FindAtSkips(prefix, rest);
    assert (prefix + "@" + rest)[|prefix| + 1..] == rest;
  }

  /**
   * A quoted reference is read back as the very path that was printed, and the
   * scan goes on right behind it - for every path, prefix and suffix. The empty
   * path is read and dropped.
   */
  lemma QuotedReferenceRoundTrip(prefix: string, p: string, suffix: string)
    requires '@' !in prefix
    ensures Scan(prefix + "@" + JsonString(p) + suffix) == (if p == "" then [] else [Exact(p)]) + Scan(suffix)
  {
    var rest := JsonString(p) + suffix;
    assert prefix + "@" + JsonString(p) + suffix == prefix + "@" + rest;
    ScanAfterPrefix(prefix, rest);
    JsonStringReads(p, suffix);
    assert rest[|JsonString(p)|..] == suffix;
  }

  /** An `@"` that begins no JSON string is passed over: the scan goes on behind the quote. */
  lemma BrokenQuoteIsSkipped(prefix: string, rest: string)
    requires '@' !in prefix && rest != "" && rest[0] == '\"'
    requires forall p: string, n: nat :: !Spells(rest, p, n)
    ensures Scan(prefix + "@" + rest) == Scan(rest[1..])
  {
    ScanAfterPrefix(prefix, rest);
    if TakeJsonString(rest).Some? { TakenIsSpelled(rest); }
    hide TakeJsonString, Spells, Scan;
  }

  lemma {:induction false} WordLengthIs(word: string, suffix: string)
    requires forall c | c in word :: WordChar(c)
    requires suffix == "" || !WordChar(suffix[0])
    ensures WordLength(word + suffix) == |word|
  {
    if word == "" {
      assert word + suffix == suffix;
    } else {
      assert (word + suffix)[1..] == word[1..] + suffix;
      WordLengthIs(word[1..], suffix);
    }
  }

  lemma {:induction false} TrimEndIs(word: string, dots: string)
    requires (word == "" || !Trimmed(word[|word| - 1])) && forall c | c in dots :: Trimmed(c)
    ensures TrimEnd(word + dots) == word
  {
    if dots == "" {
      assert word + dots == word;
    } else {
      var k := |dots| - 1;
      assert (word + dots)[..|word + dots| - 1] == word + dots[..k];
      assert dots[k] in dots;
      TrimEndIs(word, dots[..k]);
    }
  }

  /** A bare reference loses its trailing punctuation and nothing else. */
  lemma BareReferenceRoundTrip(prefix: string, word: string, dots: string, suffix: string)
    requires '@' !in prefix
    requires word != "" && (forall c | c in word :: WordChar(c)) && !Trimmed(word[|word| - 1])
    requires forall c | c in dots :: c == '.' || c == '/'
    requires suffix == "" || !WordChar(suffix[0])
    ensures Scan(prefix + "@" + word + dots + suffix) == [Fuzzy(word)] + Scan(suffix)
  {
    hide FindAt, TakeJsonString, WordLength, TrimEnd, Scan;
    var rest := word + dots + suffix;
    assert prefix + "@" + word + dots + suffix == prefix + "@" + rest;
    ScanAfterPrefix(prefix, rest);
    assert word[0] in word;
    WordLengthIs(word + dots, suffix);
    TrimEndIs(word, dots);
    assert rest[..|word + dots|] == word + dots && rest[|word + dots|..] == suffix;
  }

  predicate GoodToken(t: AtRef) {
    match t
    case Exact(p) => p != ""
    case Fuzzy(w) => w != "" && (forall c | c in w :: WordChar(c)) && !Trimmed(w[|w| - 1])
  }

  lemma OneTokenIsGood(rest: string)
    ensures forall t | t in ScanOne(rest).0 :: GoodToken(t)
  {
    hide TakeJsonString;
  }

  /** No token is empty; bare ones are words without trailing punctuation. */
  lemma {:induction false} TokensAreGood(text: string)
    ensures forall t | t in Scan(text) :: GoodToken(t)
    decreases |text|
  {
    var at := FindAt(text);
    if at < |text| {
      ScanStep(text);
      OneTokenIsGood(text[at + 1..]);
      hide FindAt, ScanOne, Scan, GoodToken;
      TokensAreGood(ScanOne(text[at + 1..]).1);
    }
  }

  /** At `i` stands an `@`, and behind it a JSON string for `p`. */
  predicate QuotedAt(text: string, p: string, i: nat) {
    && i < |text| && text[i] == '@'
    && var taken := TakeJsonString(text[i + 1..]);
       taken.Some? && taken.value.0 == p
  }

  /** Every exact token was written: behind some `@` stands a JSON string for it. */
  lemma {:induction false} ExactTokensWereQuoted(text: string, p: string)
    requires Exact(p) in Scan(text)
    ensures exists i: nat :: QuotedAt(text, p, i)
    decreases |text|
  {
    hide *;
    var at := FindAt(text);
    TokenIsHereOrLater(text, Exact(p));
    var rest := text[at + 1..];
    OneTokenWasQuoted(text, at, p);
    if Exact(p) !in ScanOne(rest).0 {
      var later := ScanOne(rest).1;
      ExactTokensWereQuoted(later, p);
      var i: nat :| QuotedAt(later, p, i);
      ScanOneLeavesSuffix(rest);
      SuffixOfSuffix(text, at + 1, later);
      QuotedInSuffix(text, later, p, i);
    }
  }

  lemma TokenIsHereOrLater(text: string, t: AtRef)
    requires t in Scan(text)
    ensures var at := FindAt(text);
      && at < |text| && text[at] == '@'
      && (t in ScanOne(text[at + 1..]).0 || t in Scan(ScanOne(text[at + 1..]).1))
      && |ScanOne(text[at + 1..]).1| < |text|
  {
    hide FindAt, ScanOne;
  }

  lemma SuffixOfSuffix(text: string, n: nat, later: string)
    requires n <= |text| && |later| <= |text| - n && later == text[n..][|text| - n - |later|..]
    ensures later == text[|text| - |later|..]
  {
  }

  lemma QuotedInSuffix(text: string, suffix: string, p: string, i: nat)
    requires |suffix| <= |text| && suffix == text[|text| - |suffix|..] && QuotedAt(suffix, p, i)
    ensures QuotedAt(text, p, |text| - |suffix| + i)
  {
    SuffixPlace(text, suffix, i);
    hide TakeJsonString;
  }

  lemma SuffixPlace(text: string, suffix: string, i: nat)
    requires |suffix| <= |text| && suffix == text[|text| - |suffix|..] && i < |suffix|
    ensures var k := |text| - |suffix| + i;
      k < |text| && text[k] == suffix[i] && text[k + 1..] == suffix[i + 1..]
  {
  }

  lemma OneTokenWasQuoted(text: string, at: nat, p: string)
    requires at < |text| && text[at] == '@'
    ensures Exact(p) in ScanOne(text[at + 1..]).0 ==> QuotedAt(text, p, at)
  {
    hide TakeJsonString, WordLength, TrimEnd;
  }

  lemma ScanOneLeavesSuffix(rest: string)
    ensures ScanOne(rest).1 == rest[|rest| - |ScanOne(rest).1|..]
  {
    hide TakeJsonString, WordLength, TrimEnd;
  }
}
