/**
  The InfluxQL text `get_points` sends to the local store
  (uploader/uploader.py:74-80), built by string formatting exactly as the
  source does it, including its two quirks: tag conditions are joined with no
  separator at all, and an empty field list or tag map leaves an empty slot.
 */
module QueryText {
  import opened Wrappers
  import opened Dicts
  import opened Config

  /** Python's `sep.join(parts)`. */
  function Join(sep: string, parts: seq<string>): string
  {
    if |parts| == 0 then ""
    else if |parts| == 1 then parts[0]
    else parts[0] + sep + Join(sep, parts[1..])
  }

  /** One tag condition, `"key"='value'`. */
  function TagFragment(key: string, value: string): string
  {
    "\"" + key + "\"='" + value + "'"
  }

  /** `''.join(...)` over the tag map in its order: the fragments are simply abutted. */
  function TagClause(tags: Dict<string>): string
  {
    if |tags| == 0 then "" else TagFragment(tags[0].0, tags[0].1) + TagClause(tags[1..])
  }

  /** The decimal digit character for d. */
  function DigitChar(d: nat): char
    requires d < 10
  {
    ('0' as int + d) as char
  }

  function NatDigits(n: nat): string
  {
    if n < 10 then [DigitChar(n)] else NatDigits(n / 10) + [DigitChar(n % 10)]
  }

  /** Python's `'{}'.format(n)` for an int: its decimal numeral. */
  function Decimal(n: int): string
  {
    if n < 0 then "-" + NatDigits(-n) else NatDigits(n)
  }

  /** The query of uploader/uploader.py:75-80. */
  function SelectQuery(src: Source): string
  {
    "SELECT \"" + Join("\",\"", src.fields) + "\" FROM \"" + src.measurement
      + "\" WHERE \"status\"=0 AND " + TagClause(src.tags) + " LIMIT " + Decimal(src.limit)
  }

  // ----- reference definitions the query text is checked against -----

  /** Each field name quoted as an identifier. */
  function Quoted(fields: seq<string>): (r: seq<string>)
    ensures |r| == |fields|
  {
    seq(|fields|, i requires 0 <= i < |fields| => "\"" + fields[i] + "\"")
  }

  function DigitValue(c: char): nat
  {
    if '0' <= c <= '9' then (c as int - '0' as int) else 0
  }

  predicate IsDigits(s: string)
  {
    |s| > 0 && forall i :: 0 <= i < |s| ==> '0' <= s[i] <= '9'
  }

  /** The value of a string of decimal digits, read left to right. */
  function DigitsValue(s: string): nat
  {
    if |s| == 0 then 0 else DigitsValue(s[..|s| - 1]) * 10 + DigitValue(s[|s| - 1])
  }

  /** An independent reader of integer numerals: an optional minus sign, then digits. */
  function ParseNumeral(s: string): Option<int>
  {
    if |s| > 0 && s[0] == '-' && IsDigits(s[1..]) then Some(-(DigitsValue(s[1..]) as int))
    else if IsDigits(s) then Some(DigitsValue(s))
    else None
  }

  // ----- properties -----

  /** Quoting the joined list at both ends is the same as joining the quoted names with commas. */
  lemma {:induction false} JoinQuoted(fields: seq<string>)
    requires |fields| > 0
    ensures "\"" + Join("\",\"", fields) + "\"" == Join(",", Quoted(fields))
    decreases |fields|
  {
    if |fields| > 1 {
      var rest := fields[1..];
      JoinQuoted(rest);
      assert Quoted(fields)[1..] == Quoted(rest);
      calc {
        "\"" + Join("\",\"", fields) + "\"";
        "\"" + (fields[0] + "\",\"" + Join("\",\"", rest)) + "\"";
        ("\"" + fields[0] + "\"") + "," + ("\"" + Join("\",\"", rest) + "\"");
        Quoted(fields)[0] + "," + Join(",", Quoted(rest));
      }
    }
  }

  /** Tag conditions of consecutive slices of the tag map are abutted, with no `AND` between them. */
  lemma {:induction false} TagClauseAppend(t1: Dict<string>, t2: Dict<string>)
    ensures TagClause(t1 + t2) == TagClause(t1) + TagClause(t2)
    decreases |t1|
  {
    if |t1| == 0 {
      assert t1 + t2 == t2;
    } else {
      assert (t1 + t2)[0] == t1[0];
      assert (t1 + t2)[1..] == t1[1..] + t2;
      TagClauseAppend(t1[1..], t2);
    }
  }

  /** The condition of the tag at position i sits directly between those before and after it. */
  lemma TagClauseAt(tags: Dict<string>, i: nat)
    requires i < |tags|
    ensures TagClause(tags) ==
      TagClause(tags[..i]) + TagFragment(tags[i].0, tags[i].1) + TagClause(tags[i + 1..])
  {
    assert tags == tags[..i] + tags[i..];
    TagClauseAppend(tags[..i], tags[i..]);
    var a, f, c := TagClause(tags[..i]), TagFragment(tags[i].0, tags[i].1), TagClause(tags[i + 1..]);
    assert TagClause(tags[i..]) == f + c by {
      assert tags[i..][0] == tags[i] && tags[i..][1..] == tags[i + 1..];
    }
    assert a + (f + c) == a + f + c;
  }

  /**
    With one tag (k, v) and at least one field, the query is exactly
    SELECT "f1",...,"fn" FROM "m" WHERE "status"=0 AND "k"='v' LIMIT L.
   */
  lemma QueryWithOneTag(m: string, fields: seq<string>, k: string, v: string, limit: int)
    requires |fields| > 0
    ensures SelectQuery(Source(m, fields, [(k, v)], limit)) ==
      "SELECT " + Join(",", Quoted(fields)) + " FROM \"" + m + "\" WHERE \"status\"=0 AND \""
        + k + "\"='" + v + "' LIMIT " + Decimal(limit)
  {
    JoinQuoted(fields);
    assert TagClause([(k, v)]) == TagFragment(k, v) + TagClause([]);
    OneTagText(Join("\",\"", fields), Join(",", Quoted(fields)), m, k, v, Decimal(limit));
  }

  lemma OneTagText(j: string, quoted: string, m: string, k: string, v: string, limit: string)
    requires quoted == "\"" + j + "\""
    ensures "SELECT \"" + j + "\" FROM \"" + m + "\" WHERE \"status\"=0 AND " + ("\"" + k + "\"='" + v + "'") + " LIMIT " + limit ==
      "SELECT " + quoted + " FROM \"" + m + "\" WHERE \"status\"=0 AND \"" + k + "\"='" + v + "' LIMIT " + limit
  {
  }

  /** With two tags the two conditions are abutted with no `AND` between them. */
  lemma QueryWithTwoTags(m: string, fields: seq<string>, k1: string, v1: string,
                         k2: string, v2: string, limit: int)
    requires |fields| > 0
    ensures SelectQuery(Source(m, fields, [(k1, v1), (k2, v2)], limit)) ==
      "SELECT " + Join(",", Quoted(fields)) + " FROM \"" + m + "\" WHERE \"status\"=0 AND "
        + TagFragment(k1, v1) + TagFragment(k2, v2) + " LIMIT " + Decimal(limit)
  {
    JoinQuoted(fields);
    var tags := [(k1, v1), (k2, v2)];
    assert TagClause(tags) == TagFragment(k1, v1) + TagFragment(k2, v2) by {
      assert TagClause(tags[1..]) == TagFragment(k2, v2) + TagClause([]);
    }
  }

  lemma {:induction false} NatDigitsValue(n: nat)
    ensures IsDigits(NatDigits(n)) && DigitsValue(NatDigits(n)) == n
    decreases n
  {
    if n >= 10 {
      var q, d := n / 10, n % 10;
      NatDigitsValue(q);
      var s := NatDigits(q) + [DigitChar(d)];
      assert NatDigits(n) == s;
      assert s[..|s| - 1] == NatDigits(q);
      assert DigitValue(s[|s| - 1]) == d;
      assert q * 10 + d == n;
    }
  }

  /** The limit is written as its decimal numeral and reads back as the same integer. */
  lemma DecimalRoundTrip(n: int)
    ensures ParseNumeral(Decimal(n)) == Some(n)
  {
    if n < 0 {
      NegativeRoundTrip(n);
    } else {
      NatRoundTrip(n);
    }
  }

  lemma NegativeRoundTrip(n: int)
    requires n < 0
    ensures ParseNumeral(Decimal(n)) == Some(n)
  {
    var digits := NatDigits(-n);
    NatDigitsValue(-n);
    ParseSigned(digits);
    assert Decimal(n) == "-" + digits;
  }

  lemma NatRoundTrip(n: nat)
    ensures ParseNumeral(Decimal(n)) == Some(n)
  {
    var digits := NatDigits(n);
    NatDigitsValue(n);
    ParseUnsigned(digits);
    assert Decimal(n) == digits;
  }

  lemma ParseSigned(digits: string)
    requires IsDigits(digits)
    ensures ParseNumeral("-" + digits) == Some(-(DigitsValue(digits) as int))
  {
    var s := "-" + digits;
    assert s[0] == '-' && s[1..] == digits;
  }

  lemma ParseUnsigned(digits: string)
    requires IsDigits(digits)
    ensures ParseNumeral(digits) == Some(DigitsValue(digits))
  {
    assert '0' <= digits[0] <= '9';
  }
}
