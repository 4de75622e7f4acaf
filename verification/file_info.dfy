/** The attachment helpers of `src/routes/courses/utils.ts`: an icon and a
    colour class chosen from substrings of the MIME type, and the human file
    size. */
module FileInfo {
  import opened Wrappers
  import opened Text

  const PdfIcon := "\U{1F4C4}"
  const ImageIcon := "\U{1F5BC}\U{FE0F}"
  const VideoIcon := "\U{1F3A5}"
  const AudioIcon := "\U{1F3B5}"
  const DocumentIcon := "\U{1F4DD}"
  const SheetIcon := "\U{1F4CA}"
  const SlidesIcon := "\U{1F4FD}\U{FE0F}"
  const OtherIcon := "\U{1F4CE}"

  predicate IsSheet(m: string) { Contains(m, "excel") || Contains(m, "spreadsheet") }
  predicate IsSlides(m: string) { Contains(m, "powerpoint") || Contains(m, "presentation") }

  /** `getFileIcon`: the first matching keyword wins; `text` and `word` share
      an icon. */
  function GetFileIcon(m: string): (icon: string)
    ensures Contains(m, "pdf") ==> icon == PdfIcon
    ensures !Contains(m, "pdf") && Contains(m, "image") ==> icon == ImageIcon
    ensures !Contains(m, "pdf") && !Contains(m, "image") && Contains(m, "video") ==> icon == VideoIcon
    ensures !Contains(m, "pdf") && !Contains(m, "image") && !Contains(m, "video") && Contains(m, "audio") ==>
      icon == AudioIcon
    ensures (!Contains(m, "pdf") && !Contains(m, "image") && !Contains(m, "video") && !Contains(m, "audio")
      && (Contains(m, "text") || Contains(m, "word"))) ==> icon == DocumentIcon
    ensures (!Contains(m, "pdf") && !Contains(m, "image") && !Contains(m, "video") && !Contains(m, "audio")
      && !Contains(m, "text") && !Contains(m, "word") && IsSheet(m)) ==> icon == SheetIcon
    ensures (!Contains(m, "pdf") && !Contains(m, "image") && !Contains(m, "video") && !Contains(m, "audio")
      && !Contains(m, "text") && !Contains(m, "word") && !IsSheet(m) && IsSlides(m)) ==> icon == SlidesIcon
    ensures icon == OtherIcon <==>
      !Contains(m, "pdf") && !Contains(m, "image") && !Contains(m, "video") && !Contains(m, "audio")
      && !Contains(m, "text") && !Contains(m, "word") && !IsSheet(m) && !IsSlides(m)
  {
    if Contains(m, "pdf") then PdfIcon
    else if Contains(m, "image") then ImageIcon
    else if Contains(m, "video") then VideoIcon
    else if Contains(m, "audio") then AudioIcon
    else if Contains(m, "text") then DocumentIcon
    else if Contains(m, "word") then DocumentIcon
    else if IsSheet(m) then SheetIcon
    else if IsSlides(m) then SlidesIcon
    else OtherIcon
  }

  const PdfColor := "border-red-500 bg-red-900/20 hover:bg-red-900/40"
  const ImageColor := "border-green-500 bg-green-900/20 hover:bg-green-900/40"
  const VideoColor := "border-purple-500 bg-purple-900/20 hover:bg-purple-900/40"
  const AudioColor := "border-yellow-500 bg-yellow-900/20 hover:bg-yellow-900/40"
  const DocumentColor := "border-blue-500 bg-blue-900/20 hover:bg-blue-900/40"
  const SheetColor := "border-emerald-500 bg-emerald-900/20 hover:bg-emerald-900/40"
  const SlidesColor := "border-orange-500 bg-orange-900/20 hover:bg-orange-900/40"
  const OtherColor := "border-indigo-500 bg-indigo-900/20 hover:bg-indigo-900/40"

  /** The colour classes differ from the fallback: each names its own
      colour right after `border-`. */
  lemma OnlyFallbackIsOther()
    ensures PdfColor != OtherColor && ImageColor != OtherColor && VideoColor != OtherColor
    ensures AudioColor != OtherColor && DocumentColor != OtherColor
    ensures SheetColor != OtherColor && SlidesColor != OtherColor
  {
  }

  /** `getFileColor`: the first matching keyword wins. */
  function GetFileColor(m: string): (color: string)
    ensures Contains(m, "pdf") ==> color == PdfColor
    ensures !Contains(m, "pdf") && Contains(m, "image") ==> color == ImageColor
    ensures !Contains(m, "pdf") && !Contains(m, "image") && Contains(m, "video") ==> color == VideoColor
    ensures !Contains(m, "pdf") && !Contains(m, "image") && !Contains(m, "video") && Contains(m, "audio") ==>
      color == AudioColor
    ensures (!Contains(m, "pdf") && !Contains(m, "image") && !Contains(m, "video") && !Contains(m, "audio")
      && Contains(m, "word")) ==> color == DocumentColor
    ensures (!Contains(m, "pdf") && !Contains(m, "image") && !Contains(m, "video") && !Contains(m, "audio")
      && !Contains(m, "word") && IsSheet(m)) ==> color == SheetColor
    ensures (!Contains(m, "pdf") && !Contains(m, "image") && !Contains(m, "video") && !Contains(m, "audio")
      && !Contains(m, "word") && !IsSheet(m) && IsSlides(m)) ==> color == SlidesColor
    ensures color == OtherColor <==>
      !Contains(m, "pdf") && !Contains(m, "image") && !Contains(m, "video") && !Contains(m, "audio")
      && !Contains(m, "word") && !IsSheet(m) && !IsSlides(m)
  {
    OnlyFallbackIsOther();
    if Contains(m, "pdf") then PdfColor
    else if Contains(m, "image") then ImageColor
    else if Contains(m, "video") then VideoColor
    else if Contains(m, "audio") then AudioColor
    else if Contains(m, "word") then DocumentColor
    else if IsSheet(m) then SheetColor
    else if IsSlides(m) then SlidesColor
    else OtherColor
  }

  /** Icon and colour agree on which MIME types are unrecognised, except that
      `text` types get the document icon but the fallback colour. */
  lemma IconAndColorFallbacks(m: string)
    ensures GetFileIcon(m) == OtherIcon ==> GetFileColor(m) == OtherColor
    ensures GetFileColor(m) == OtherColor && GetFileIcon(m) != OtherIcon ==>
      GetFileIcon(m) == DocumentIcon && Contains(m, "text")
  {
  }

  // `parseInt` with no radix.

  /** The characters `parseInt` skips before the number: JavaScript white
      space and line terminators. These are the Unicode `White_Space`
      characters except NEL (U+0085), plus the byte-order mark. */
  predicate IsJsSpace(c: char) {
    (IsWhitespace(c) && c != '\U{85}') || c == '\U{FEFF}'
  }

  /** NEL is not skipped: a size written after it does not parse. */
  lemma NextLineIsNotSkipped()
    ensures ParseInt("\U{85}5").None?
  {
    assert !IsJsSpace('\U{85}');
    assert SkipSpace("\U{85}5") == "\U{85}5";
  }

  function SkipSpace(s: string): (r: string)
    ensures |r| <= |s| && r == s[|s| - |r|..]
    ensures r == [] || !IsJsSpace(r[0])
    ensures s != [] && !IsJsSpace(s[0]) ==> r == s
  {
    if s != [] && IsJsSpace(s[0]) then SkipSpace(s[1..]) else s
  }

  function DigitValue(c: char, radix: nat): (d: Option<nat>)
    ensures d.Some? ==> d.value < radix
  {
    if '0' <= c <= '9' && (c as int - '0' as int) < radix then Some(c as int - '0' as int)
    else if radix == 16 && 'a' <= c <= 'f' then Some(c as int - 'a' as int + 10)
    else if radix == 16 && 'A' <= c <= 'F' then Some(c as int - 'A' as int + 10)
    else None
  }

  /** The length of the run of digits `s` starts with. */
  function DigitRun(s: string, radix: nat): (n: nat)
    ensures n <= |s|
    ensures forall i :: 0 <= i < n ==> DigitValue(s[i], radix).Some?
    ensures n < |s| ==> DigitValue(s[n], radix).None?
  {
    if s != [] && DigitValue(s[0], radix).Some? then 1 + DigitRun(s[1..], radix) else 0
  }

  /** The value of a run of digits, most significant first. */
  function DigitsValue(d: string, radix: nat): nat
    requires forall i :: 0 <= i < |d| ==> DigitValue(d[i], radix).Some?
  {
    if d == [] then 0
    else DigitsValue(d[..|d| - 1], radix) * radix + DigitValue(d[|d| - 1], radix).value
  }

  /** A leading sign: whether it is `-`, and the text after it. */
  function Sign(t: string): (r: (bool, string))
    ensures r.0 <==> t != [] && t[0] == '-'
    ensures t != [] && (t[0] == '-' || t[0] == '+') ==> r.1 == t[1..]
    ensures !(t != [] && (t[0] == '-' || t[0] == '+')) ==> r.1 == t
  {
    if t != [] && (t[0] == '-' || t[0] == '+') then (t[0] == '-', t[1..]) else (false, t)
  }

  /** A `0x` or `0X` prefix selects hexadecimal digits; otherwise decimal. */
  function Radix(u: string): (r: (nat, string))
    ensures r.0 == 16 || r.0 == 10
    ensures r.0 == 16 <==> |u| >= 2 && u[0] == '0' && (u[1] == 'x' || u[1] == 'X')
    ensures r.0 == 16 ==> r.1 == u[2..]
    ensures r.0 == 10 ==> r.1 == u
  {
    if |u| >= 2 && u[0] == '0' && (u[1] == 'x' || u[1] == 'X') then (16, u[2..]) else (10, u)
  }

  /** The value of the leading digits, or `None` when there are none. */
  function LeadingNumber(w: string, radix: nat): (r: Option<nat>)
    ensures r.None? <==> w == [] || DigitValue(w[0], radix).None?
  {
    var n := DigitRun(w, radix);
    if n == 0 then None else Some(DigitsValue(w[..n], radix))
  }

  /** `parseInt(s)`: `None` stands for `NaN`. */
  function ParseInt(s: string): (r: Option<int>)
    ensures r.None? <==> var u := Sign(SkipSpace(s)).1; LeadingNumber(Radix(u).1, Radix(u).0).None?
  {
    ParseSigned(SkipSpace(s))
  }

  /** `parseInt` once the leading white space is skipped. */
  function ParseSigned(t: string): (r: Option<int>)
    ensures r.None? <==> var u := Sign(t).1; LeadingNumber(Radix(u).1, Radix(u).0).None?
  {
    var (negative, u) := Sign(t);
    var (radix, w) := Radix(u);
    match LeadingNumber(w, radix)
    case None => None
    case Some(v) => Some(if negative then -(v as int) else v as int)
  }

  lemma {:induction false} DecimalValue(n: nat)
    ensures forall i :: 0 <= i < |NatToString(n)| ==> DigitValue(NatToString(n)[i], 10).Some?
    ensures DigitsValue(NatToString(n), 10) == n
  {
    var s := NatToString(n);
    if n >= 10 {
      DecimalValue(n / 10);
      assert s[..|s| - 1] == NatToString(n / 10);
    }
  }

  /** `parseInt` reads back the decimal text of any natural number. */
  lemma ParseIntReadsDecimal(n: nat)
    ensures ParseInt(NatToString(n)) == Some(n)
  {
    ParseIntReadsLeadingDecimal(n, []);
    assert NatToString(n) + [] == NatToString(n);
  }

  /** `parseInt` stops at the first character that is not a digit, so a
      size such as `12 KB` reads as 12, and a leading `-` negates it. A
      `0` followed by `x` would select hexadecimal instead. */
  lemma ParseIntReadsLeadingDecimal(n: nat, t: string)
    requires t == [] || !('0' <= t[0] <= '9')
    requires n == 0 && t != [] ==> t[0] != 'x' && t[0] != 'X'
    ensures ParseInt(NatToString(n) + t) == Some(n)
    ensures ParseInt("-" + NatToString(n) + t) == Some(-(n as int))
  {
    var d := NatToString(n);
    var w := d + t;
    DecimalValue(n);
    LeadingZeroOnlyForZero(n);
    if n == 0 {
      assert d == "0";
    }
    DecimalWord(d, t);
    DigitIsNotSpace(w[0]);
    ParseIntOfWord(w, false, w, n);
    var m := "-" + d + t;
    assert m == "-" + w && m[1..] == w;
    assert !IsJsSpace(m[0]);
    ParseIntOfWord(m, true, w, n);
  }

  /** What `parseInt` returns once white space, sign and radix are read. */
  lemma ParseIntOfWord(s: string, negative: bool, u: string, v: nat)
    requires Sign(SkipSpace(s)) == (negative, u)
    requires LeadingNumber(Radix(u).1, Radix(u).0) == Some(v)
    ensures ParseInt(s) == Some(if negative then -(v as int) else v as int)
  {
  }

  /** Decimal digits followed by a non-digit are read as one decimal number. */
  lemma DecimalWord(d: string, t: string)
    requires d != [] && forall i :: 0 <= i < |d| ==> '0' <= d[i] <= '9'
    requires t == [] || !('0' <= t[0] <= '9')
    requires d[0] == '0' && |d| == 1 && t != [] ==> t[0] != 'x' && t[0] != 'X'
    requires d[0] == '0' ==> |d| == 1
    ensures Radix(d + t) == (10, d + t)
    ensures LeadingNumber(d + t, 10) == Some(DigitsValue(d, 10))
  {
    DigitRunStops(d, t);
    assert (d + t)[..|d|] == d;
  }

  lemma {:induction false} LeadingZeroOnlyForZero(n: nat)
    ensures NatToString(n)[0] == '0' ==> n == 0
  {
    if n >= 10 {
      LeadingZeroOnlyForZero(n / 10);
      assert NatToString(n)[0] == NatToString(n / 10)[0];
    }
  }

  lemma {:induction false} DigitRunStops(d: string, t: string)
    requires forall i :: 0 <= i < |d| ==> '0' <= d[i] <= '9'
    requires t == [] || !('0' <= t[0] <= '9')
    ensures DigitRun(d + t, 10) == |d|
  {
    var w := d + t;
    if d != [] {
      assert w[0] == d[0] && w[1..] == d[1..] + t;
      assert DigitValue(w[0], 10).Some?;
      DigitRunStops(d[1..], t);
    } else {
      assert w == t;
      assert t == [] || DigitValue(t[0], 10).None?;
    }
  }

  /** JavaScript white space before the number is skipped. */
  lemma {:induction false} ParseIntSkipsSpace(ws: string, s: string)
    requires forall i :: 0 <= i < |ws| ==> IsJsSpace(ws[i])
    ensures ParseInt(ws + s) == ParseInt(s)
  {
    SkipSpaceSkips(ws, s);
  }

  lemma {:induction false} SkipSpaceSkips(ws: string, s: string)
    requires forall i :: 0 <= i < |ws| ==> IsJsSpace(ws[i])
    ensures SkipSpace(ws + s) == SkipSpace(s)
  {
    var w := ws + s;
    if ws != [] {
      assert w[0] == ws[0] && w[1..] == ws[1..] + s;
      assert SkipSpace(w) == SkipSpace(w[1..]);
      SkipSpaceSkips(ws[1..], s);
    } else {
      assert ws + s == s;
    }
  }

  lemma DigitIsNotSpace(c: char)
    requires '0' <= c <= '9'
    ensures !IsJsSpace(c)
  {
  }

  const Units := ["B", "KB", "MB", "GB"]

  function Power(b: real, e: nat): real {
    if e == 0 then 1.0 else b * Power(b, e - 1)
  }

  /** A size left as given, or a value and a unit index into `Units`. */
  datatype FileSize = Unparsed(text: string) | Scaled(value: real, unit: nat)

  /** `value` in unit `unit` is `bytes` bytes, in the largest unit that
      keeps the value at least 1, or gigabytes. */
  predicate IsScaling(bytes: int, value: real, unit: nat) {
    && unit < |Units|
    && value * Power(1024.0, unit) == bytes as real
    && (unit < |Units| - 1 ==> value < 1024.0)
    && (unit > 0 ==> value >= 1.0)
  }

  /** The unit loop of `formatFileSize`: the byte count is divided by 1024
      while it is at least 1024, at most three times. */
  method ScaleBytes(bytes: int) returns (value: real, unit: nat)
    ensures IsScaling(bytes, value, unit)
  {
    unit := 0;
    value := bytes as real;
    while value >= 1024.0 && unit < |Units| - 1
      invariant unit < |Units|
      invariant value * Power(1024.0, unit) == bytes as real
      invariant unit > 0 ==> value >= 1.0
    {
      DivideStep(value, unit);
      value := value / 1024.0;
      unit := unit + 1;
    }
  }

  lemma DivideStep(value: real, e: nat)
    ensures (value / 1024.0) * Power(1024.0, e + 1) == value * Power(1024.0, e)
  {
    var p := Power(1024.0, e);
    assert Power(1024.0, e + 1) == 1024.0 * p;
    calc {
      (value / 1024.0) * (1024.0 * p);
      ((value / 1024.0) * 1024.0) * p;
      value * p;
    }
  }

  /** `formatFileSize`, up to the one-decimal rendering: an unparsable size
      is returned unchanged, any other is scaled to its unit. */
  method FormatFileSize(size: string) returns (r: FileSize)
    ensures ParseInt(size).None? ==> r == Unparsed(size)
    ensures ParseInt(size).Some? ==> r.Scaled? && IsScaling(ParseInt(size).value, r.value, r.unit)
  {
    var bytes := ParseInt(size);
    if bytes.None? {
      return Unparsed(size);
    }
    var value, unit := ScaleBytes(bytes.value);
    return Scaled(value, unit);
  }
}
