/** The Content-Range header of a chunk (section 14.4 of RFC 9110): printed by the browser, read by the server. */
module ContentRange {
  import opened Basics
  import opened Decimal

  /** How many digits a string begins with. */
  function Digits(s: string): (n: nat)
    ensures n <= |s| && AllDigits(s[..n]) && (n < |s| ==> !IsDigit(s[n]))
  {
    if s == "" || !IsDigit(s[0]) then 0
    else
      assert s[1..][..Digits(s[1..])] == s[1..Digits(s[1..]) + 1];
      1 + Digits(s[1..])
  }

  lemma {:induction false} DigitsOf(a: string, b: string)
    requires AllDigits(a) && (b == "" || !IsDigit(b[0]))
    ensures Digits(a + b) == |a|
  {
    if a == "" {
      assert a + b == b;
    } else {
      assert (a + b)[1..] == a[1..] + b;
      DigitsOf(a[1..], b);
    }
  }

  predicate IsNumber(s: string) { s != "" && AllDigits(s) }

  /** A number up to a separator, and what follows it. */
  function Number(s: string, separator: char): Option<(nat, string)> {
    var n := Digits(s);
    if n == 0 || n == |s| || s[n] != separator then None else Some((Value(s[..n]), s[n + 1..]))
  }

  lemma NumberRead(a: string, separator: char, b: string)
    requires IsNumber(a) && !IsDigit(separator)
    ensures Number(a + [separator] + b, separator) == Some((Value(a), b))
  {
    var s := a + [separator] + b;
    assert s == a + ([separator] + b);
    DigitsOf(a, [separator] + b);
    assert s[..|a|] == a && s[|a| + 1..] == b;
  }

  lemma NumberMeans(s: string, separator: char)
    requires Number(s, separator).Some?
    ensures var a, b := s[..Digits(s)], Number(s, separator).value.1;
            IsNumber(a) && s == a + [separator] + b
  {
  }

  predicate IsTotal(s: string) { s == "*" || IsNumber(s) }

  /** The first and last position of `bytes first-last/total`; the total may be `*`. */
  function Parse(header: string): Option<(nat, nat)> {
    if |header| < 6 || header[..6] != "bytes " then None
    else match Number(header[6..], '-')
      case None => None
      case Some(first) =>
        match Number(first.1, '/')
        case None => None
        case Some(last) => if IsTotal(last.1) then Some((first.0, last.0)) else None
  }

  predicate WellFormed(header: string, first: string, last: string, total: string) {
    && IsNumber(first) && IsNumber(last) && IsTotal(total)
    && header == "bytes " + (first + "-" + (last + "/" + total))
  }

  lemma ParseWellFormed(header: string, first: string, last: string, total: string)
    requires WellFormed(header, first, last, total)
    ensures Parse(header) == Some((Value(first), Value(last)))
  {
    hide Number, IsTotal, Value;
    NumberRead(first, '-', last + "/" + total);
    NumberRead(last, '/', total);
    assert header[6..] == first + "-" + (last + "/" + total) && header[..6] == "bytes ";
  }

  /** A header is accepted exactly when it has the form, and then both positions are read off it. */
  lemma ParseExact(header: string)
    ensures Parse(header).Some? <==> exists first, last, total :: WellFormed(header, first, last, total)
  {
    if Parse(header).Some? {
      hide Number;
      var r := header[6..];
      var q := Number(r, '-').value.1;
      NumberMeans(r, '-'); NumberMeans(q, '/');
      assert header == header[..6] + r;
      assert WellFormed(header, r[..Digits(r)], q[..Digits(q)], Number(q, '/').value.1);
    }
    forall first, last, total | WellFormed(header, first, last, total) ensures Parse(header).Some? {
      ParseWellFormed(header, first, last, total);
    }
  }

  /** The blanks that `strip()` takes off; header text is Latin-1, where these are all there are. */
  predicate IsBlank(ch: char) {
    '\U{0009}' <= ch <= '\U{000D}' || '\U{001C}' <= ch <= '\U{0020}' || ch == '\U{0085}' || ch == '\U{00A0}'
  }

  function StripLeft(s: string): string {
    if s != "" && IsBlank(s[0]) then StripLeft(s[1..]) else s
  }

  function StripRight(s: string): string {
    if s != "" && IsBlank(s[|s| - 1]) then StripRight(s[..|s| - 1]) else s
  }

  /** `header.strip()` */
  function Strip(s: string): string { StripRight(StripLeft(s)) }

  predicate AllBlank(s: string) { forall i | 0 <= i < |s| :: IsBlank(s[i]) }

  lemma {:induction false} StripLeftOf(a: string, b: string)
    requires AllBlank(a) && (b == "" || !IsBlank(b[0]))
    ensures StripLeft(a + b) == b
  {
    if a == "" {
      assert a + b == b;
    } else {
      assert (a + b)[1..] == a[1..] + b;
      StripLeftOf(a[1..], b);
    }
  }

  lemma {:induction false} StripRightOf(a: string, b: string)
    requires AllBlank(b) && (a == "" || !IsBlank(a[|a| - 1]))
    ensures StripRight(a + b) == a
  {
    if b == "" {
      assert a + b == a;
    } else {
      assert (a + b)[..|a + b| - 1] == a + b[..|b| - 1];
      StripRightOf(a, b[..|b| - 1]);
    }
  }

  /** Blanks around a header that neither begins nor ends with one come off. */
  lemma StripSurrounded(before: string, header: string, after: string)
    requires AllBlank(before) && AllBlank(after)
    requires header != "" && !IsBlank(header[0]) && !IsBlank(header[|header| - 1])
    ensures Strip(before + header + after) == header
  {
    assert before + header + after == before + (header + after);
    StripLeftOf(before, header + after);
    StripRightOf(header, after);
  }

  datatype Range = Missing | Invalid | Starting(start: nat)

  /** What `upload_chunk` makes of the header before it looks at the offset. */
  function Check(header: Option<string>): Range {
    if header == None then Missing
    else match Parse(Strip(header.value))
      case None => Invalid
      case Some(range) => if range.1 < range.0 then Invalid else Starting(range.0)
  }

  function PrintRange(start: nat, size: nat, total: nat): string
    requires size > 0
  {
    "bytes " + (Print(start) + "-" + (Print(start + size - 1) + "/" + Print(total)))
  }

  /** The text that `Check` accepts: a well-formed range with blanks around it, in order. */
  ghost predicate Acceptable(header: string, start: nat) {
    exists first, last, total :: WellFormed(Strip(header), first, last, total) && Value(first) == start <= Value(last)
  }

  /** A header is read as a start exactly if, but for blanks around it, it is a range in order beginning there. */
  lemma CheckExact(header: string, start: nat)
    ensures Check(Some(header)) == Starting(start) <==> Acceptable(header, start)
  {
    hide Strip, Parse;
    var h := Strip(header);
    ParseExact(h);
    forall first, last, total | WellFormed(h, first, last, total)
      ensures Parse(h) == Some((Value(first), Value(last)))
    {
      ParseWellFormed(h, first, last, total);
    }
  }

  /** The browser's header for a chunk of at least one byte is always read as that chunk's start. */
  lemma BrowserRangeIsRead(start: nat, size: nat, total: nat)
    requires size > 0
    ensures Check(Some(PrintRange(start, size, total))) == Starting(start)
  {
    var header := PrintRange(start, size, total);
    ParseWellFormed(header, Print(start), Print(start + size - 1), Print(total));
    PrintedUnblank(start, size, total);
    StripSurrounded("", header, "");
    assert "" + header + "" == header;
  }

  lemma PrintedUnblank(start: nat, size: nat, total: nat)
    requires size > 0
    ensures var header := PrintRange(start, size, total);
            header != "" && !IsBlank(header[0]) && !IsBlank(header[|header| - 1])
  {
    var header, t := PrintRange(start, size, total), Print(total);
    assert header[|header| - 1] == t[|t| - 1];
    assert IsDigit(t[|t| - 1]);
  }
}
