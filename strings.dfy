/**
 * The string operations the plugin borrows from Qt: QString::indexOf and
 * QString::split, QString::replace of one character, QUrl::fromPercentEncoding
 * (section 2.1 of RFC 3986) and the query items QUrlQuery reads from a URL.
 * Strings are sequences of characters; a decoded octet is the character with
 * that code.
 */
module Strings {
  import opened Wrappers

  /** `pat` occurs in `s` starting at index `i`. */
  predicate OccursAt(s: string, pat: string, i: nat)
  {
    i + |pat| <= |s| && s[i..i + |pat|] == pat
  }

  lemma OccursAtTail(s: string, pat: string)
    requires |s| > 0
    ensures forall j: nat :: j > 0 ==> (OccursAt(s, pat, j) <==> OccursAt(s[1..], pat, j - 1))
  {
    forall j: nat | j > 0
      ensures OccursAt(s, pat, j) <==> OccursAt(s[1..], pat, j - 1)
    {
      if j + |pat| <= |s| {
        assert s[1..][j - 1..j - 1 + |pat|] == s[j..j + |pat|];
      }
    }
  }

  /** QString::indexOf: the first index at which `pat` occurs in `s`; None stands for -1. */
  function IndexOf(s: string, pat: string): (r: Option<nat>)
    ensures r.Some? ==> r.value + |pat| <= |s|
    decreases |s|
  {
    if OccursAt(s, pat, 0) then Some(0)
    else if |s| == 0 then None
    else
      match IndexOf(s[1..], pat)
      case None => None
      case Some(k) => Some(k + 1)
  }

  /** `r` is where `pat` first occurs in `s`, or None when it occurs nowhere. */
  ghost predicate IsFirstOccurrence(s: string, pat: string, r: Option<nat>)
  {
    match r
    case None => forall j: nat :: !OccursAt(s, pat, j)
    case Some(i) => OccursAt(s, pat, i) && forall j: nat :: j < i ==> !OccursAt(s, pat, j)
  }

  /** IndexOf finds the first occurrence. */
  lemma {:induction false} IndexOfIsFirst(s: string, pat: string)
    ensures IsFirstOccurrence(s, pat, IndexOf(s, pat))
    decreases |s|
  {
    if !OccursAt(s, pat, 0) && |s| > 0 {
      OccursAtTail(s, pat);
      IndexOfIsFirst(s[1..], pat);
    }
  }

  /** The first occurrence is unique, so it is what IndexOf returns. */
  lemma FirstOccurrenceIsIndexOf(s: string, pat: string, r: Option<nat>)
    requires IsFirstOccurrence(s, pat, r)
    ensures IndexOf(s, pat) == r
  {
    IndexOfIsFirst(s, pat);
  }

  /** `pat` does not start at `j` when one of its characters is not where it would have to be. */
  lemma NotOccursAt(s: string, pat: string, j: nat, k: nat)
    requires k < |pat| && j + k < |s| && s[j + k] != pat[k]
    ensures !OccursAt(s, pat, j)
  {
    if j + |pat| <= |s| {
      assert s[j..j + |pat|][k] == s[j + k];
    }
  }

  /** Occurrences in `x + y` from index |x| on are the occurrences in `y`, shifted. */
  lemma OccursAfterPrefix(x: string, y: string, pat: string)
    ensures forall j: nat :: j >= |x| ==> (OccursAt(x + y, pat, j) <==> OccursAt(y, pat, j - |x|))
  {
    forall j: nat | j >= |x|
      ensures OccursAt(x + y, pat, j) <==> OccursAt(y, pat, j - |x|)
    {
      if j + |pat| <= |x + y| {
        assert (x + y)[j..j + |pat|] == y[j - |x|..j - |x| + |pat|];
      }
    }
  }

  /** When `pat` does not start inside `x`, searching `x + y` is searching `y`. */
  lemma IndexOfShift(x: string, y: string, pat: string)
    requires forall j: nat :: j < |x| ==> !OccursAt(x + y, pat, j)
    ensures IndexOf(x + y, pat) == match IndexOf(y, pat) { case None => None case Some(k) => Some(|x| + k) }
  {
    OccursAfterPrefix(x, y, pat);
    IndexOfIsFirst(y, pat);
    match IndexOf(y, pat)
    case None =>
      assert forall j: nat :: !OccursAt(x + y, pat, j);
      FirstOccurrenceIsIndexOf(x + y, pat, None);
    case Some(k) =>
      assert OccursAt(x + y, pat, |x| + k);
      assert forall j: nat :: j < |x| + k ==> !OccursAt(x + y, pat, j);
      FirstOccurrenceIsIndexOf(x + y, pat, Some(|x| + k));
  }

  /** Where a single character occurs: the characters of `s` before its index differ from it. */
  lemma IndexOfChar(s: string, c: char, i: nat)
    requires i < |s| && s[i] == c
    requires forall j :: 0 <= j < i ==> s[j] != c
    ensures IndexOf(s, [c]) == Some(i)
  {
    assert s[i..i + 1] == [c];
    assert OccursAt(s, [c], i);
    OccursCharAt(s, c);
    FirstOccurrenceIsIndexOf(s, [c], Some(i));
  }

  lemma OccursFirstChar(s: string, pat: string)
    requires |pat| > 0
    ensures forall k: nat :: OccursAt(s, pat, k) ==> s[k] == pat[0]
  {
    forall k: nat | OccursAt(s, pat, k) ensures s[k] == pat[0] {
      assert s[k..k + |pat|][0] == s[k];
    }
  }

  /** The first occurrence of `pat` after a prefix that does not contain its first character. */
  lemma IndexOfAfter(a: string, pat: string, b: string)
    requires |pat| > 0 && pat[0] !in a
    ensures IndexOf(a + pat + b, pat) == Some(|a|)
  {
    var s := a + pat + b;
    assert s[|a|..|a| + |pat|] == pat;
    assert OccursAt(s, pat, |a|);
    OccursFirstChar(s, pat);
    forall j | 0 <= j < |a| ensures s[j] != pat[0] {
      assert s[j] == a[j];
    }
    FirstOccurrenceIsIndexOf(s, pat, Some(|a|));
  }

  /** A pattern does not occur in a string that lacks its first character. */
  lemma IndexOfAbsentHead(s: string, pat: string)
    requires |pat| > 0 && pat[0] !in s
    ensures IndexOf(s, pat) == None
  {
    OccursFirstChar(s, pat);
    FirstOccurrenceIsIndexOf(s, pat, None);
  }

  lemma OccursCharAt(s: string, c: char)
    ensures forall k: nat :: OccursAt(s, [c], k) ==> s[k] == c
  {
    forall k: nat | OccursAt(s, [c], k) ensures s[k] == c {
      assert s[k..k + 1][0] == s[k];
    }
  }

  /** Pieces joined with `sep` between consecutive pieces. */
  function Join(parts: seq<string>, sep: char): string
  {
    if |parts| == 0 then ""
    else if |parts| == 1 then parts[0]
    else parts[0] + [sep] + Join(parts[1..], sep)
  }

  /**
   * QString::split on a one-character separator, keeping empty parts: the
   * pieces of `s` between separators. There is always at least one piece,
   * and joining the pieces again gives back `s`.
   */
  function Split(s: string, sep: char): (parts: seq<string>)
    ensures |parts| >= 1
    ensures forall i :: 0 <= i < |parts| ==> sep !in parts[i]
    ensures Join(parts, sep) == s
    decreases |s|
  {
    if |s| == 0 then [""]
    else
      var rest := Split(s[1..], sep);
      if s[0] == sep then
        assert ([""] + rest)[1..] == rest;
        [""] + rest
      else
        var parts := [[s[0]] + rest[0]] + rest[1..];
        assert |rest| > 1 ==> Join(rest, sep) == rest[0] + [sep] + Join(rest[1..], sep);
        assert parts[1..] == rest[1..];
        parts
  }

  lemma {:induction false} SplitWithoutSeparator(s: string, sep: char)
    requires sep !in s
    ensures Split(s, sep) == [s]
    decreases |s|
  {
    if |s| > 0 {
      SplitWithoutSeparator(s[1..], sep);
    }
  }

  lemma {:induction false} SplitAfterPiece(a: string, sep: char, rest: string)
    requires sep !in a
    ensures Split(a + [sep] + rest, sep) == [a] + Split(rest, sep)
    decreases |a|
  {
    var s := a + [sep] + rest;
    if |a| == 0 {
      assert s[1..] == rest;
    } else {
      assert s[1..] == a[1..] + [sep] + rest;
      SplitAfterPiece(a[1..], sep, rest);
      assert [s[0]] + a[1..] == a;
    }
  }

  /** Splitting undoes joining, for pieces that do not contain the separator. */
  lemma {:induction false} SplitOfJoin(parts: seq<string>, sep: char)
    requires |parts| >= 1
    requires forall i :: 0 <= i < |parts| ==> sep !in parts[i]
    ensures Split(Join(parts, sep), sep) == parts
    decreases |parts|
  {
    if |parts| == 1 {
      SplitWithoutSeparator(parts[0], sep);
    } else {
      SplitOfJoin(parts[1..], sep);
      SplitAfterPiece(parts[0], sep, Join(parts[1..], sep));
      assert [parts[0]] + parts[1..] == parts;
    }
  }

  /** A string splits into more than one piece exactly when it contains the separator. */
  lemma {:induction false} SplitManyIffSeparator(s: string, sep: char)
    ensures |Split(s, sep)| >= 2 <==> sep in s
  {
    if sep !in s {
      SplitWithoutSeparator(s, sep);
    }
  }

  /** QString::replace(from, to) for single characters. */
  function ReplaceChar(s: string, from: char, to: char): (r: string)
    ensures |r| == |s|
    ensures from != to ==> from !in r
    ensures forall i :: 0 <= i < |s| && s[i] != from ==> r[i] == s[i]
    ensures forall i :: 0 <= i < |s| && s[i] == from ==> r[i] == to
    ensures from !in s ==> r == s
  {
    seq(|s|, i requires 0 <= i < |s| => if s[i] == from then to else s[i])
  }

  predicate IsHexDigit(c: char)
  {
    '0' <= c <= '9' || 'a' <= c <= 'f' || 'A' <= c <= 'F'
  }

  function HexValue(c: char): (v: nat)
    requires IsHexDigit(c)
    ensures v < 16
  {
    if '0' <= c <= '9' then c as int - '0' as int
    else if 'a' <= c <= 'f' then c as int - 'a' as int + 10
    else c as int - 'A' as int + 10
  }

  /** The upper-case hexadecimal digit of `n`, the one an encoder writes. */
  function HexDigit(n: nat): (c: char)
    requires n < 16
    ensures IsHexDigit(c) && HexValue(c) == n
  {
    if n < 10 then ('0' as int + n) as char else ('A' as int + n - 10) as char
  }

  /**
   * Percent-decoding (section 2.1 of RFC 3986): every "%" followed by two
   * hexadecimal digits stands for the octet they spell; any other character,
   * a lone "%" included, stands for itself.
   */
  function PercentDecode(s: string): (r: string)
    ensures |r| <= |s|
    decreases |s|
  {
    if |s| == 0 then ""
    else if |s| >= 3 && s[0] == '%' && IsHexDigit(s[1]) && IsHexDigit(s[2]) then
      [(16 * HexValue(s[1]) + HexValue(s[2])) as char] + PercentDecode(s[3..])
    else
      [s[0]] + PercentDecode(s[1..])
  }

  /** The characters section 2.3 of RFC 3986 leaves unencoded. */
  predicate Unreserved(c: char)
  {
    'A' <= c <= 'Z' || 'a' <= c <= 'z' || '0' <= c <= '9' || c == '-' || c == '.' || c == '_' || c == '~'
  }

  predicate Octets(s: string)
  {
    forall i :: 0 <= i < |s| ==> s[i] as int < 256
  }

  /** One octet as an encoder writes it: itself when unreserved, otherwise "%" and two digits. */
  function EncodeOctet(c: char): (r: string)
    requires c as int < 256
    ensures forall i :: 0 <= i < |r| ==> Unreserved(r[i]) || r[i] == '%'
  {
    if Unreserved(c) then [c] else ['%', HexDigit(c as int / 16), HexDigit(c as int % 16)]
  }

  /**
   * Percent-encoding of octets, as the browser or the backend writes a query
   * value: every octet outside the unreserved set becomes "%" and two digits.
   * It is the inverse the decoder above is checked against.
   */
  function PercentEncode(s: string): (r: string)
    requires Octets(s)
    decreases |s|
  {
    if |s| == 0 then "" else EncodeOctet(s[0]) + PercentEncode(s[1..])
  }

  /** An encoded string holds only unreserved characters and "%". */
  lemma {:induction false} EncodedCharacters(s: string)
    requires Octets(s)
    ensures forall i :: 0 <= i < |PercentEncode(s)| ==> Unreserved(PercentEncode(s)[i]) || PercentEncode(s)[i] == '%'
    decreases |s|
  {
    if |s| > 0 {
      EncodedCharacters(s[1..]);
      var h, t := EncodeOctet(s[0]), PercentEncode(s[1..]);
      assert PercentEncode(s) == h + t;
      forall i | 0 <= i < |h + t| ensures Unreserved((h + t)[i]) || (h + t)[i] == '%' {
        if i >= |h| { assert (h + t)[i] == t[i - |h|]; }
      }
    }
  }

  /** A character that is neither unreserved nor "%" never appears in an encoding. */
  lemma EncodedAvoids(s: string, c: char)
    requires Octets(s)
    requires !Unreserved(c) && c != '%'
    ensures c !in PercentEncode(s)
  {
    EncodedCharacters(s);
  }

  lemma DecodeOfUnreservedHead(c: char, tail: string)
    requires Unreserved(c)
    ensures PercentDecode([c] + tail) == [c] + PercentDecode(tail)
  {
    assert ([c] + tail)[1..] == tail;
  }

  lemma DecodeOfEscapeHead(c: char, tail: string)
    requires c as int < 256
    ensures PercentDecode(['%', HexDigit(c as int / 16), HexDigit(c as int % 16)] + tail) == [c] + PercentDecode(tail)
  {
    var hi, lo := HexDigit(c as int / 16), HexDigit(c as int % 16);
    var e := ['%', hi, lo] + tail;
    assert e[1] == hi && e[2] == lo;
    assert e[3..] == tail;
    assert (16 * HexValue(hi) + HexValue(lo)) as char == c;
  }

  lemma DecodeOfEncodedOctet(c: char, tail: string)
    requires c as int < 256
    ensures PercentDecode(EncodeOctet(c) + tail) == [c] + PercentDecode(tail)
  {
    if Unreserved(c) {
      DecodeOfUnreservedHead(c, tail);
    } else {
      DecodeOfEscapeHead(c, tail);
    }
  }

  lemma OctetsTail(s: string)
    requires Octets(s) && |s| > 0
    ensures Octets(s[1..])
  {
    forall i | 0 <= i < |s| - 1 ensures s[1..][i] as int < 256 { assert s[1..][i] == s[i + 1]; }
  }

  lemma EncodeThenHead(s: string, rest: string)
    requires Octets(s) && |s| > 0
    ensures Octets(s[1..])
    ensures PercentEncode(s) + rest == EncodeOctet(s[0]) + (PercentEncode(s[1..]) + rest)
  {
    OctetsTail(s);
  }

  lemma Prepend(c: char, t: string, s: string, r: string)
    requires |s| > 0 && s[0] == c && s[1..] == t
    ensures [c] + (t + r) == s + r
  {
    assert [c] + t == s;
  }

  /** Decoding an encoded prefix gives back the octets it encodes, whatever follows it. */
  lemma {:induction false} DecodeOfEncodeThen(s: string, rest: string)
    requires Octets(s)
    ensures PercentDecode(PercentEncode(s) + rest) == s + PercentDecode(rest)
    decreases |s|
  {
    if |s| == 0 {
      assert PercentEncode(s) + rest == rest;
    } else {
      var c, t := s[0], s[1..];
      EncodeThenHead(s, rest);
      var tail := PercentEncode(t) + rest;
      var whole := PercentEncode(s) + rest;
      assert whole == EncodeOctet(c) + tail;
      var d := PercentDecode(whole);
      assert d == [c] + PercentDecode(tail) by {
        DecodeOfEncodedOctet(c, tail);
      }
      assert PercentDecode(tail) == t + PercentDecode(rest) by {
        DecodeOfEncodeThen(t, rest);
      }
      Prepend(c, t, s, PercentDecode(rest));
    }
  }

  /** Decoding inverts encoding. */
  lemma DecodeOfEncode(s: string)
    requires Octets(s)
    ensures PercentDecode(PercentEncode(s)) == s
  {
    DecodeOfEncodeThen(s, "");
    assert PercentEncode(s) + "" == PercentEncode(s);
  }

  /** Text without "%" decodes to itself, whatever follows it. */
  lemma {:induction false} DecodeOfPlainThen(p: string, rest: string)
    requires '%' !in p
    ensures PercentDecode(p + rest) == p + PercentDecode(rest)
    decreases |p|
  {
    if |p| > 0 {
      assert (p + rest)[1..] == p[1..] + rest;
      DecodeOfPlainThen(p[1..], rest);
      assert [p[0]] + p[1..] == p;
    } else {
      assert p + rest == rest;
    }
  }

  /** The text of `s` before its first `c` (all of it when there is none). */
  function Before(s: string, c: char): (r: string)
    ensures c !in r
    ensures c !in s ==> r == s
  {
    if c !in s then SplitWithoutSeparator(s, c); s
    else Split(s, c)[0]
  }

  /** QUrl::query(): the text after the first "?" and before any "#"; empty when there is no "?". */
  function QueryOf(url: string): string
  {
    var beforeFragment := Before(url, '#');
    match IndexOf(beforeFragment, "?")
    case None => ""
    case Some(i) => beforeFragment[i + 1..]
  }

  /** One query item "key=value"; an item without "=" is a key with an empty value. */
  function KeyValue(item: string): (string, string)
  {
    match IndexOf(item, "=")
    case None => (item, "")
    case Some(i) => (item[..i], item[i + 1..])
  }

  /** QUrlQuery's items: the "&"-separated pieces of the query, in order. */
  function QueryItems(query: string): seq<(string, string)>
  {
    if query == "" then []
    else
      var pieces := Split(query, '&');
      seq(|pieces|, i requires 0 <= i < |pieces| => KeyValue(pieces[i]))
  }

  /** `r` is the value of the first item of `items` called `key`, or None when no item has that key. */
  ghost predicate IsFirstValue(items: seq<(string, string)>, key: string, r: Option<string>)
  {
    && (r.None? <==> forall i :: 0 <= i < |items| ==> items[i].0 != key)
    && (r.Some? ==> exists i :: 0 <= i < |items| && items[i] == (key, r.value)
                                && forall j :: 0 <= j < i ==> items[j].0 != key)
  }

  lemma FirstValueBehindHead(items: seq<(string, string)>, key: string, r: Option<string>)
    requires |items| > 0 && items[0].0 != key
    requires IsFirstValue(items[1..], key, r)
    ensures IsFirstValue(items, key, r)
  {
    if r.Some? {
      var i :| 0 <= i < |items[1..]| && items[1..][i] == (key, r.value)
               && forall j :: 0 <= j < i ==> items[1..][j].0 != key;
      assert items[i + 1] == (key, r.value);
      forall j | 0 <= j < i + 1 ensures items[j].0 != key {
        if j > 0 { assert items[j] == items[1..][j - 1]; }
      }
    } else {
      forall i | 1 <= i < |items| ensures items[i].0 != key {
        assert items[i] == items[1..][i - 1];
      }
    }
  }

  /** QUrlQuery::queryItemValue: the value of the first item called `key`, if any. */
  function FirstValue(items: seq<(string, string)>, key: string): Option<string>
  {
    if |items| == 0 then None
    else if items[0].0 == key then Some(items[0].1)
    else FirstValue(items[1..], key)
  }

  /** FirstValue finds the first item with the key, and finds none exactly when no item has it. */
  lemma {:induction false} FirstValueIsFirst(items: seq<(string, string)>, key: string)
    ensures IsFirstValue(items, key, FirstValue(items, key))
  {
    if |items| > 0 && items[0].0 != key {
      FirstValueIsFirst(items[1..], key);
      FirstValueBehindHead(items, key, FirstValue(items, key));
    }
  }

  /** QUrlQuery::hasQueryItem. */
  predicate HasItem(items: seq<(string, string)>, key: string)
  {
    exists i :: 0 <= i < |items| && items[i].0 == key
  }

  /** QUrlQuery::queryItemValue, which is empty for a missing key. */
  function ItemValue(items: seq<(string, string)>, key: string): (v: string)
    ensures !HasItem(items, key) ==> v == ""
  {
    FirstValueIsFirst(items, key);
    FirstValue(items, key).GetOr("")
  }

  /** The value of the item at `i`, when no item before it has the same key. */
  lemma ItemValueAt(items: seq<(string, string)>, key: string, i: nat)
    requires i < |items| && items[i].0 == key
    requires forall j :: 0 <= j < i ==> items[j].0 != key
    ensures ItemValue(items, key) == items[i].1
  {
    FirstValueIsFirst(items, key);
  }

  /** QUrlQuery::toString for items as given: "key=value" pieces joined by "&". */
  function RenderQuery(items: seq<(string, string)>): string
  {
    Join(seq(|items|, i requires 0 <= i < |items| => items[i].0 + "=" + items[i].1), '&')
  }

  lemma RenderQuerySingle(item: (string, string))
    ensures RenderQuery([item]) == item.0 + "=" + item.1
  {
    var pieces := seq(1, i requires 0 <= i < 1 => [item][i].0 + "=" + [item][i].1);
    assert pieces == [item.0 + "=" + item.1];
  }

  /** A rendered query is its first item, "&", and the rendering of the others. */
  lemma RenderQueryCons(item: (string, string), items: seq<(string, string)>)
    requires |items| > 0
    ensures RenderQuery([item] + items) == item.0 + "=" + item.1 + "&" + RenderQuery(items)
  {
    var all := [item] + items;
    var pieces := seq(|all|, i requires 0 <= i < |all| => all[i].0 + "=" + all[i].1);
    var rest := seq(|items|, i requires 0 <= i < |items| => items[i].0 + "=" + items[i].1);
    assert pieces[1..] == rest;
  }

  /** A query of two items, written out. */
  lemma RenderPair(k1: string, v1: string, k2: string, v2: string)
    ensures RenderQuery([(k1, v1), (k2, v2)]) == k1 + "=" + v1 + "&" + (k2 + "=" + v2)
  {
    RenderQueryCons((k1, v1), [(k2, v2)]);
    RenderQuerySingle((k2, v2));
    assert [(k1, v1)] + [(k2, v2)] == [(k1, v1), (k2, v2)];
  }

  /** RenderPair, grouped around the two values. */
  lemma RenderPairGrouped(k1: string, v1: string, k2: string, v2: string)
    ensures RenderQuery([(k1, v1), (k2, v2)]) == (k1 + "=") + (v1 + (("&" + (k2 + "=")) + v2))
  {
    RenderPair(k1, v1, k2, v2);
    Regroup4(k1 + "=", v1, "&" + (k2 + "="), v2);
  }

  lemma Regroup4(a: string, b: string, c: string, d: string)
    ensures a + b + c + d == a + (b + (c + d))
  {
  }

  /** A character that is in no key, no value and is neither "&" nor "=" is not in the rendered query. */
  lemma NoCharInRender(items: seq<(string, string)>, c: char)
    requires c != '&' && c != '='
    requires forall i :: 0 <= i < |items| ==> c !in items[i].0 && c !in items[i].1
    ensures c !in RenderQuery(items)
  {
    var pieces := seq(|items|, i requires 0 <= i < |items| => items[i].0 + "=" + items[i].1);
    forall i | 0 <= i < |pieces| ensures c !in pieces[i] {
      assert pieces[i] == items[i].0 + "=" + items[i].1;
    }
    NoCharInJoin(pieces, '&', c);
  }

  /** Plain text around two encoded values decodes to the text around the values. */
  lemma DecodeOfEncodedParts(head: string, v1: string, mid: string, v2: string)
    requires '%' !in head && '%' !in mid
    requires Octets(v1) && Octets(v2)
    ensures PercentDecode(head + (PercentEncode(v1) + (mid + PercentEncode(v2)))) == head + (v1 + (mid + v2))
  {
    var e1, e2 := PercentEncode(v1), PercentEncode(v2);
    calc {
      PercentDecode(head + (e1 + (mid + e2)));
      { DecodeOfPlainThen(head, e1 + (mid + e2)); }
      head + PercentDecode(e1 + (mid + e2));
      { DecodeOfEncodeThen(v1, mid + e2); }
      head + (v1 + PercentDecode(mid + e2));
      { DecodeOfPlainThen(mid, e2); }
      head + (v1 + (mid + PercentDecode(e2)));
      { DecodeOfEncode(v2); }
      head + (v1 + (mid + v2));
    }
  }

  /** Decoding a rendered query of two items whose values were encoded gives the items as text. */
  lemma DecodeOfEncodedPair(k1: string, v1: string, k2: string, v2: string)
    requires '%' !in k1 && '%' !in k2
    requires Octets(v1) && Octets(v2)
    ensures PercentDecode(RenderQuery([(k1, PercentEncode(v1)), (k2, PercentEncode(v2))]))
            == RenderQuery([(k1, v1), (k2, v2)])
  {
    RenderPairGrouped(k1, PercentEncode(v1), k2, PercentEncode(v2));
    RenderPairGrouped(k1, v1, k2, v2);
    assert '%' !in k1 + "=" && '%' !in "&" + (k2 + "=");
    DecodeOfEncodedParts(k1 + "=", v1, "&" + (k2 + "="), v2);
  }

  /** A second value holding "&" and "=" renders like a second and a third item. */
  lemma RenderPairSplitsValue(k1: string, v1: string, k2: string, a: string, k3: string, b: string)
    ensures RenderQuery([(k1, v1), (k2, a + "&" + k3 + "=" + b)]) == RenderQuery([(k1, v1), (k2, a), (k3, b)])
  {
    RenderPair(k1, v1, k2, a + "&" + k3 + "=" + b);
    RenderQueryCons((k1, v1), [(k2, a), (k3, b)]);
    RenderPair(k2, a, k3, b);
    assert [(k1, v1)] + [(k2, a), (k3, b)] == [(k1, v1), (k2, a), (k3, b)];
  }

  /** Text made only of unreserved characters. */
  predicate UnreservedText(s: string)
  {
    forall i :: 0 <= i < |s| ==> Unreserved(s[i])
  }

  lemma UnreservedAvoids(s: string, c: char)
    requires UnreservedText(s) && !Unreserved(c)
    ensures c !in s
  {
  }

  /** Items whose text needs no escaping inside a query. */
  predicate PlainItems(items: seq<(string, string)>)
  {
    forall i :: 0 <= i < |items| ==>
      '&' !in items[i].0 && '=' !in items[i].0 && '#' !in items[i].0
      && '&' !in items[i].1 && '#' !in items[i].1
  }

  lemma KeyValueOfRendered(k: string, v: string)
    requires '=' !in k
    ensures KeyValue(k + "=" + v) == (k, v)
  {
    var s := k + "=" + v;
    assert s[|k|] == '=';
    forall j | 0 <= j < |k| ensures s[j] != '=' {
      assert s[j] == k[j];
    }
    IndexOfChar(s, '=', |k|);
    assert s[..|k|] == k;
    assert s[|k| + 1..] == v;
  }

  /** Reading the items back from a rendered query gives the items that were rendered. */
  lemma QueryItemsOfRender(items: seq<(string, string)>)
    requires PlainItems(items)
    ensures QueryItems(RenderQuery(items)) == items
  {
    var pieces := seq(|items|, i requires 0 <= i < |items| => items[i].0 + "=" + items[i].1);
    if |items| > 0 {
      forall i | 0 <= i < |pieces| ensures '&' !in pieces[i] {
        assert pieces[i] == items[i].0 + "=" + items[i].1;
      }
      SplitOfJoin(pieces, '&');
      assert pieces[0][|items[0].0|] == '=';
      assert RenderQuery(items) != "" by {
        SplitOfJoin(pieces, '&');
        if Join(pieces, '&') == "" {
          SplitWithoutSeparator("", '&');
        }
      }
      forall i | 0 <= i < |items| ensures KeyValue(pieces[i]) == items[i] {
        KeyValueOfRendered(items[i].0, items[i].1);
      }
    }
  }

  /** A URL made of a base without "?" or "#" and a rendered query yields that query's items. */
  lemma QueryOfUrl(base: string, items: seq<(string, string)>)
    requires '?' !in base && '#' !in base
    requires PlainItems(items)
    ensures QueryItems(QueryOf(base + "?" + RenderQuery(items))) == items
  {
    var q := RenderQuery(items);
    var url := base + "?" + q;
    assert '#' !in q by {
      var pieces := seq(|items|, i requires 0 <= i < |items| => items[i].0 + "=" + items[i].1);
      NoCharInJoin(pieces, '&', '#');
    }
    assert '#' !in url;
    assert url[|base|] == '?';
    forall j | 0 <= j < |base| ensures url[j] != '?' {
      assert url[j] == base[j];
    }
    IndexOfChar(url, '?', |base|);
    assert url[|base| + 1..] == q;
    QueryItemsOfRender(items);
  }

  lemma {:induction false} NoCharInJoin(parts: seq<string>, sep: char, c: char)
    requires c != sep
    requires forall i :: 0 <= i < |parts| ==> c !in parts[i]
    ensures c !in Join(parts, sep)
    decreases |parts|
  {
    if |parts| > 1 {
      NoCharInJoin(parts[1..], sep, c);
    }
  }
}
