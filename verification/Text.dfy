/** The text handling the links rely on: decimal numbers, splitting and form fields. */
module Text {
  import opened Wrappers

  // ---- Decimal numbers ----

  function DigitChar(d: nat): char
    requires d < 10
  {
    '0' + d as char
  }

  predicate IsDigit(c: char) {
    '0' <= c <= '9'
  }

  function Itoa(n: nat): (s: string)
    ensures s != "" && forall i :: 0 <= i < |s| ==> IsDigit(s[i])
  {
    if n < 10 then [DigitChar(n)] else Itoa(n / 10) + [DigitChar(n % 10)]
  }

  /** The value of a string of digits. */
  function Digits(s: string): Option<nat>
    decreases |s|
  {
    if s == "" || !IsDigit(s[|s| - 1]) then None
    else
      var last := (s[|s| - 1] - '0') as int;
      if |s| == 1 then Some(last)
      else
        var rest := Digits(s[..|s| - 1]);
        if rest.None? then None else Some(rest.value * 10 + last)
  }

  /** `strconv.Atoi`, without its bounds. */
  function Atoi(s: string): Option<int> {
    if s != "" && s[0] == '-' then
      var v := Digits(s[1..]);
      if v.Some? then var n: int := v.value; Some(-n) else None
    else if s != "" && s[0] == '+' then Digits(s[1..])
    else Digits(s)
  }

  lemma {:induction false} DigitsOfItoa(n: nat)
    ensures Digits(Itoa(n)) == Some(n)
  {
    if n >= 10 {
      DigitsOfItoa(n / 10);
      assert Itoa(n)[..|Itoa(n)| - 1] == Itoa(n / 10);
    }
  }

  lemma AtoiOfItoa(n: nat)
    ensures Atoi(Itoa(n)) == Some(n)
  {
    DigitsOfItoa(n);
    assert IsDigit(Itoa(n)[0]);
  }

  /** Leading zeros do not count. */
  lemma {:induction false} DigitsWithZero(s: string)
    requires s != ""
    ensures Digits("0" + s) == Digits(s)
    decreases |s|
  {
    var t := "0" + s;
    assert t[|t| - 1] == s[|s| - 1] && t[..|t| - 1] == "0" + s[..|s| - 1];
    if |s| > 1 {
      DigitsWithZero(s[..|s| - 1]);
    } else {
      assert t[..1] == "0";
      assert Digits("0") == Some(0);
    }
  }

  /** A text has a value if it is a row of digits, with one sign before it or none. */
  lemma {:induction false} DigitsOnly(s: string)
    ensures Digits(s).Some? <==> s != "" && forall i :: 0 <= i < |s| ==> '0' <= s[i] <= '9'
    decreases |s|
  {
    if |s| > 1 {
      DigitsOnly(s[..|s| - 1]);
    }
  }

  lemma AtoiHas(s: string)
    ensures Atoi(s).Some? <==>
              var digits := if s != "" && (s[0] == '-' || s[0] == '+') then s[1..] else s;
              digits != "" && forall i :: 0 <= i < |digits| ==> '0' <= digits[i] <= '9'
  {
    DigitsOnly(s);
    if s != "" {
      DigitsOnly(s[1..]);
    }
  }

  function Zeros(n: nat): string {
    if n == 0 then "" else "0" + Zeros(n - 1)
  }

  lemma {:induction false} DigitsOfZeros(n: nat, zeros: nat)
    ensures Digits(Zeros(zeros) + Itoa(n)) == Some(n)
    ensures Zeros(zeros) + Itoa(n) != "" && IsDigit((Zeros(zeros) + Itoa(n))[0])
    decreases zeros
  {
    if zeros == 0 {
      assert Zeros(0) + Itoa(n) == Itoa(n);
      DigitsOfItoa(n);
    } else {
      var rest := Zeros(zeros - 1) + Itoa(n);
      DigitsOfZeros(n, zeros - 1);
      assert Zeros(zeros) + Itoa(n) == "0" + rest && ("0" + rest)[0] == '0';
      DigitsWithZero(rest);
    }
  }

  /** A printed number reads back, with any zeros before it and with a sign. */
  lemma AtoiSigned(n: int, zeros: nat)
    requires n >= 0
    ensures var digits := Zeros(zeros) + Itoa(n);
            Atoi(digits) == Some(n) && Atoi("+" + digits) == Some(n) && Atoi("-" + digits) == Some(-n)
  {
    var digits := Zeros(zeros) + Itoa(n);
    DigitsOfZeros(n, zeros);
    assert ("+" + digits)[1..] == digits && ("-" + digits)[1..] == digits;
  }

  // ---- Splitting ----

  /** `strings.Split` at a one-character separator. */
  function Split(s: string, sep: char): (parts: seq<string>)
    ensures parts != []
    decreases |s|
  {
    if s == "" then [""]
    else
      var rest := Split(s[1..], sep);
      if s[0] == sep then [""] + rest else [[s[0]] + rest[0]] + rest[1..]
  }

  function Join(parts: seq<string>, sep: char): string
    decreases |parts|
  {
    if parts == [] then "" else if |parts| == 1 then parts[0] else parts[0] + [sep] + Join(parts[1..], sep)
  }

  /** The part before the separator stays whole. */
  lemma {:induction false} SplitHead(head: string, tail: string, sep: char)
    requires sep !in head
    ensures Split(head + [sep] + tail, sep) == [head] + Split(tail, sep)
    decreases |head|
  {
    var s := head + [sep] + tail;
    if head == "" {
      assert s[1..] == tail;
    } else {
      assert s[1..] == head[1..] + [sep] + tail;
      SplitHead(head[1..], tail, sep);
      assert [s[0]] + head[1..] == head;
    }
  }

  lemma {:induction false} SplitWhole(s: string, sep: char)
    requires sep !in s
    ensures Split(s, sep) == [s]
    decreases |s|
  {
    if s != "" {
      SplitWhole(s[1..], sep);
      assert [s[0]] + s[1..] == s;
    }
  }

  lemma {:induction false} SplitJoin(parts: seq<string>, sep: char)
    requires parts != [] && forall p :: p in parts ==> sep !in p
    ensures Split(Join(parts, sep), sep) == parts
    decreases |parts|
  {
    assert parts[0] in parts;
    if |parts| == 1 {
      SplitWhole(parts[0], sep);
    } else {
      SplitJoin(parts[1..], sep);
      SplitHead(parts[0], Join(parts[1..], sep), sep);
      assert parts == [parts[0]] + parts[1..];
    }
  }

  // ---- Form fields ----

  function HexValue(c: char): Option<nat> {
    if '0' <= c <= '9' then Some((c - '0') as int)
    else if 'a' <= c <= 'f' then Some((c - 'a') as int + 10)
    else if 'A' <= c <= 'F' then Some((c - 'A') as int + 10)
    else None
  }

  /** Query unescaping; none for a malformed escape. */
  function Unescape(s: string): Option<string>
    decreases |s|
  {
    if s == "" then Some("")
    else if s[0] == '%' then
      if |s| < 3 || HexValue(s[1]).None? || HexValue(s[2]).None? then None
      else
        var rest := Unescape(s[3..]);
        if rest.None? then None else Some([(HexValue(s[1]).value * 16 + HexValue(s[2]).value) as char] + rest.value)
    else
      var rest := Unescape(s[1..]);
      if rest.None? then None else Some([if s[0] == '+' then ' ' else s[0]] + rest.value)
  }

  lemma {:induction false} UnescapePlain(s: string)
    requires '%' !in s && '+' !in s
    ensures Unescape(s) == Some(s)
    decreases |s|
  {
    if s != "" {
      UnescapePlain(s[1..]);
      assert s == [s[0]] + s[1..];
    }
  }

  function HexDigit(d: nat): char
    requires d < 16
  {
    "0123456789ABCDEF"[d]
  }

  /** Text with every byte escaped. */
  function Escaped(s: string): string
    requires forall i :: 0 <= i < |s| ==> s[i] as int < 256
  {
    if s == "" then ""
    else ['%', HexDigit(s[0] as int / 16), HexDigit(s[0] as int % 16)] + Escaped(s[1..])
  }

  lemma HexValueOfDigit(d: nat)
    requires d < 16
    ensures HexValue(HexDigit(d)) == Some(d)
    ensures HexValue("0123456789abcdef"[d]) == Some(d)
  {
  }

  /** Escaped text reads back, and a plus reads as a blank. */
  lemma {:induction false} UnescapeEscaped(s: string)
    requires forall i :: 0 <= i < |s| ==> s[i] as int < 256
    ensures Unescape(Escaped(s)) == Some(s)
    decreases |s|
  {
    if s != "" {
      var c := s[0] as int;
      HexValueOfDigit(c / 16);
      HexValueOfDigit(c % 16);
      UnescapeEscaped(s[1..]);
      assert Escaped(s)[3..] == Escaped(s[1..]);
      assert c / 16 * 16 + c % 16 == c;
      assert s == [s[0]] + s[1..];
    }
  }

  /** A plus sign is a space, and a percent sign begins two hexadecimal digits or the text is
      malformed. */
  lemma UnescapeMarks(s: string)
    ensures Unescape("+" + s) == if Unescape(s).Some? then Some(" " + Unescape(s).value) else None
    ensures Unescape("%" + s).Some? ==>
              && |s| >= 2
              && (forall i :: 0 <= i <= 1 ==> '0' <= s[i] <= '9' || 'A' <= s[i] <= 'F' || 'a' <= s[i] <= 'f')
              && Unescape(s[2..]).Some?
  {
    assert ("+" + s)[1..] == s;
    if |s| >= 2 {
      assert ("%" + s)[1] == s[0] && ("%" + s)[2] == s[1] && ("%" + s)[3..] == s[2..];
    }
  }

  /** Where a character first occurs; the length of the string if it does not. */
  function IndexOf(s: string, c: char): (i: nat)
    ensures i <= |s| && c !in s[..i] && (i < |s| ==> s[i] == c)
    decreases |s|
  {
    if s == "" || s[0] == c then 0
    else
      assert s[..IndexOf(s[1..], c) + 1] == [s[0]] + s[1..][..IndexOf(s[1..], c)];
      IndexOf(s[1..], c) + 1
  }

  lemma {:induction false} IndexIsHead(head: string, tail: string, c: char)
    requires c !in head
    ensures IndexOf(head + [c] + tail, c) == |head|
    decreases |head|
  {
    if head != "" {
      assert (head + [c] + tail)[1..] == head[1..] + [c] + tail;
      IndexIsHead(head[1..], tail, c);
    }
  }

  datatype Field = Field(key: string, value: string)

  /** A `key=value` piece, cut at its first `=` and unescaped; malformed pieces are dropped. */
  function ParseField(piece: string): Option<Field> {
    var i := IndexOf(piece, '=');
    var key, value := Unescape(piece[..i]), Unescape(if i < |piece| then piece[i + 1..] else "");
    if piece == "" || key.None? || value.None? then None else Some(Field(key.value, value.value))
  }

  /** `form.Get`: the value of the first field with the key, or the empty string. */
  function FormGet(pieces: seq<string>, key: string): string
    decreases |pieces|
  {
    if pieces == [] then ""
    else
      var field := ParseField(pieces[0]);
      if field.Some? && field.value.key == key then field.value.value else FormGet(pieces[1..], key)
  }

  /** The first field with the key gives the value; with no such field it is empty. */
  lemma {:induction false} FormGetIsFirst(pieces: seq<string>, key: string, i: nat)
    requires forall j :: 0 <= j < i && j < |pieces| ==> !(ParseField(pieces[j]).Some? && ParseField(pieces[j]).value.key == key)
    ensures i >= |pieces| ==> FormGet(pieces, key) == ""
    ensures i < |pieces| && ParseField(pieces[i]).Some? && ParseField(pieces[i]).value.key == key ==>
              FormGet(pieces, key) == ParseField(pieces[i]).value.value
    decreases |pieces|
  {
    if pieces != [] && i > 0 {
      assert forall j :: 0 <= j < |pieces| - 1 ==> pieces[1..][j] == pieces[j + 1];
      FormGetIsFirst(pieces[1..], key, i - 1);
    }
  }

  /** A field is cut at its first equals sign, and both sides are unescaped; without one its value
      is empty. */
  lemma FieldIs(key: string, value: string)
    requires '=' !in key && Unescape(key).Some?
    ensures Unescape(value).Some? ==>
              ParseField(key + "=" + value) == Some(Field(Unescape(key).value, Unescape(value).value))
    ensures Unescape(value).None? ==> ParseField(key + "=" + value).None?
    ensures key != "" ==> ParseField(key) == Some(Field(Unescape(key).value, ""))
  {
    var piece := key + "=" + value;
    IndexIsHead(key, value, '=');
    assert piece == key + ['='] + value;
    assert piece[..|key|] == key && piece[|key| + 1..] == value;
    assert key[..|key|] == key;
    assert forall i :: 0 <= i < |key| ==> key[i] != '=';
  }
}
