/** Segment file names: `<queue>_<year>-<month>-<day>-<hour>-<minute>-<second>-<rand>.json`,
    with `.gz` appended when the queue compresses (indexq.py:59, 66-72, 99-100). The queue
    name is pasted into the pattern that `str.format` fills, so its braces are format syntax. */
module Segments {
  import opened Results
  import opened Decimal

  /** What `_gen_file_name` reads from `datetime.datetime.now()` and from
      `random.randint(0, 10000)`. */
  datatype Stamp = Stamp(year: nat, month: nat, day: nat, hour: nat, minute: nat, second: nat, rand: nat)

  const RandMax: nat := 10000

  /** The ranges `datetime` and `randint(0, RandMax)` keep to; every month is allowed 31 days. */
  predicate ValidStamp(st: Stamp) {
    1 <= st.year <= 9999 && 1 <= st.month <= 12 && 1 <= st.day <= 31 &&
    st.hour < 24 && st.minute < 60 && st.second < 60 && st.rand <= RandMax
  }

  predicate IsBrace(c: char) {
    c == '{' || c == '}'
  }

  predicate BraceFree(s: string) {
    forall i :: 0 <= i < |s| ==> !IsBrace(s[i])
  }

  /** What `str.format` makes of `text` standing ahead of the `_{}.json` of the output
      pattern: `{{` and `}}` each give one brace. Any other brace either opens a replacement
      field or is a lone `}`; the call then raises (a second automatic field or a switch
      to manual numbering before the pattern's own `{}`, an unknown key, an attribute or
      index lookup that fails, a bad format spec, or a malformed field: ValueError,
      IndexError, KeyError, AttributeError or TypeError), which is `None` here. */
  function FormatLiteral(text: string): (out: Option<string>)
    ensures BraceFree(text) ==> out == Some(text)
    ensures out.Some? ==> |out.value| <= |text|
    decreases |text|
  {
    if text == [] then Some([])
    else if IsBrace(text[0]) then
      if |text| >= 2 && text[1] == text[0] then
        match FormatLiteral(text[2..])
        case None => None
        case Some(rest) => Some([text[0]] + rest)
      else None
    else
      assert BraceFree(text) ==> BraceFree(text[1..]) by {
        if BraceFree(text) {
          forall i | 0 <= i < |text[1..]| ensures !IsBrace(text[1..][i]) {
            assert text[1..][i] == text[i + 1];
          }
        }
      }
      assert text == [text[0]] + text[1..];
      match FormatLiteral(text[1..])
      case None => None
      case Some(rest) => Some([text[0]] + rest)
  }

  /** Doubles every brace: the text to put in a format string so that it comes out as `s`. */
  function EscapeBraces(s: string): (e: string)
    ensures |e| >= |s|
  {
    if s == [] then []
    else (if IsBrace(s[0]) then [s[0], s[0]] else [s[0]]) + EscapeBraces(s[1..])
  }

  /** Escaping and formatting are inverse: the escaped text of `s` formats to `s` ... */
  lemma {:induction false} FormatLiteralOfEscaped(s: string)
    ensures FormatLiteral(EscapeBraces(s)) == Some(s)
  {
    if s != [] {
      FormatLiteralOfEscaped(s[1..]);
      var e := EscapeBraces(s);
      if IsBrace(s[0]) {
        assert e[2..] == EscapeBraces(s[1..]);
      } else {
        assert e[1..] == EscapeBraces(s[1..]);
      }
      assert s == [s[0]] + s[1..];
    }
  }

  /** ... and it is the only text that does: a queue name that formats without raising
      is the escaped form of the prefix it yields. */
  lemma {:induction false} FormattedIsEscaped(text: string, s: string)
    requires FormatLiteral(text) == Some(s)
    ensures text == EscapeBraces(s)
    decreases |text|
  {
    if text != [] {
      if IsBrace(text[0]) {
        FormattedIsEscaped(text[2..], s[1..]);
        assert text == [text[0], text[0]] + text[2..];
      } else {
        FormattedIsEscaped(text[1..], s[1..]);
        assert text == [text[0]] + text[1..];
      }
    }
  }

  /** Queue `a{{b` writes `a{b_...` names; a lone brace either way, or an empty field,
      makes every name generation raise. */
  lemma FormatLiteralExamples()
    ensures FormatLiteral("a{{b") == Some("a{b")
    ensures FormatLiteral("a{b") == None && FormatLiteral("a}b") == None && FormatLiteral("{}") == None
  {
    assert "a{{b"[1..] == "{{b" && "{{b"[2..] == "b" && "b"[1..] == [];
    assert FormatLiteral("b") == Some("b");
    assert ['{'] + "b" == "{b" && ['a'] + "{b" == "a{b";
    assert FormatLiteral("{{b") == Some("{b");
    assert "a{b"[1..] == "{b" && "a}b"[1..] == "}b";
  }

  predicate StartsWith(s: string, prefix: string) {
    |prefix| <= |s| && s[..|prefix|] == prefix
  }

  predicate EndsWith(s: string, suffix: string) {
    |suffix| <= |s| && s[|s| - |suffix|..] == suffix
  }

  function Dashed(a: string, b: string): string {
    a + "-" + b
  }

  /** The date-and-random part, every number in decimal without zero padding. */
  function StampText(st: Stamp): string {
    Dashed(NatToString(st.year), Dashed(NatToString(st.month), Dashed(NatToString(st.day),
      Dashed(NatToString(st.hour), Dashed(NatToString(st.minute), Dashed(NatToString(st.second),
      NatToString(st.rand)))))))
  }

  /** `_gen_file_name` of a queue whose name formats to `prefix`. */
  function FileName(prefix: string, st: Stamp): (name: string)
    ensures StartsWith(name, prefix + "_") && EndsWith(name, ".json")
  {
    var name := (prefix + "_") + (StampText(st) + ".json");
    assert name[..|prefix + "_"|] == prefix + "_";
    assert name[|name| - 5..] == ".json";
    name
  }

  /** The name `_write_file` tries for one stamp: it carries the queue prefix, the drain
      filter picks it up, and it ends in `.gz` exactly when the queue compresses. */
  function SegmentName(prefix: string, st: Stamp, compress: bool): (name: string)
    ensures StartsWith(name, prefix + "_")
    ensures IsSegmentName(name)
    ensures EndsWith(name, ".json.gz") <==> compress
    ensures EndsWith(name, ".gz") <==> compress
  {
    SuffixShape(prefix, FileName(prefix, st), compress);
    FileName(prefix, st) + (if compress then ".gz" else "")
  }

  lemma SuffixShape(prefix: string, base: string, compress: bool)
    requires StartsWith(base, prefix + "_") && EndsWith(base, ".json")
    ensures var name := base + (if compress then ".gz" else "");
      StartsWith(name, prefix + "_") && IsSegmentName(name) &&
      (EndsWith(name, ".json.gz") <==> compress) && (EndsWith(name, ".gz") <==> compress)
  {
    var name := base + (if compress then ".gz" else "");
    assert name[..|prefix + "_"|] == base[..|prefix + "_"|];
    if compress {
      assert name[|name| - 8..] == ".json.gz";
    } else {
      assert name[|name| - 5..] == ".json";
      assert name[|name| - 1] == 'n';
    }
  }

  /** The filter of `get_all_as_list`. */
  predicate IsSegmentName(name: string) {
    EndsWith(name, ".json") || EndsWith(name, ".json.gz")
  }

  lemma NoDashInDigits(s: string)
    requires AllDigits(s)
    ensures '-' !in s
  {
  }

  /** A dash after a dash-free first part splits the text in one way only. */
  lemma DashedInjective(a: string, b: string, c: string, d: string)
    requires '-' !in a && '-' !in c
    requires Dashed(a, b) == Dashed(c, d)
    ensures a == c && b == d
  {
    var x := Dashed(a, b);
    var m := if |a| < |c| then |a| else |c|;
    assert x[m] == '-' ==> m == |a| == |c|;
    assert a == x[..|a|] == c;
    assert b == x[|a| + 1..] == d;
  }

  lemma DecimalDashedInjective(m: nat, n: nat, b: string, d: string)
    requires Dashed(NatToString(m), b) == Dashed(NatToString(n), d)
    ensures m == n && b == d
  {
    NoDashInDigits(NatToString(m));
    NoDashInDigits(NatToString(n));
    DashedInjective(NatToString(m), b, NatToString(n), d);
    NatToStringInjective(m, n);
  }

  lemma StampTextInjective(s1: Stamp, s2: Stamp)
    requires StampText(s1) == StampText(s2)
    ensures s1 == s2
  {
    var D := NatToString;
    DecimalDashedInjective(s1.year, s2.year,
      Dashed(D(s1.month), Dashed(D(s1.day), Dashed(D(s1.hour), Dashed(D(s1.minute), Dashed(D(s1.second), D(s1.rand)))))),
      Dashed(D(s2.month), Dashed(D(s2.day), Dashed(D(s2.hour), Dashed(D(s2.minute), Dashed(D(s2.second), D(s2.rand)))))));
    DecimalDashedInjective(s1.month, s2.month,
      Dashed(D(s1.day), Dashed(D(s1.hour), Dashed(D(s1.minute), Dashed(D(s1.second), D(s1.rand))))),
      Dashed(D(s2.day), Dashed(D(s2.hour), Dashed(D(s2.minute), Dashed(D(s2.second), D(s2.rand))))));
    DecimalDashedInjective(s1.day, s2.day,
      Dashed(D(s1.hour), Dashed(D(s1.minute), Dashed(D(s1.second), D(s1.rand)))),
      Dashed(D(s2.hour), Dashed(D(s2.minute), Dashed(D(s2.second), D(s2.rand)))));
    DecimalDashedInjective(s1.hour, s2.hour,
      Dashed(D(s1.minute), Dashed(D(s1.second), D(s1.rand))),
      Dashed(D(s2.minute), Dashed(D(s2.second), D(s2.rand))));
    DecimalDashedInjective(s1.minute, s2.minute,
      Dashed(D(s1.second), D(s1.rand)), Dashed(D(s2.second), D(s2.rand)));
    DecimalDashedInjective(s1.second, s2.second, D(s1.rand), D(s2.rand));
    NatToStringInjective(s1.rand, s2.rand);
  }

  lemma StripAffixes(prefix: string, t1: string, t2: string, suffix: string)
    requires prefix + t1 + suffix == prefix + t2 + suffix
    ensures t1 == t2
  {
    var n := prefix + t1 + suffix;
    assert |t1| == |t2|;
    assert t1 == n[|prefix|..|prefix| + |t1|];
    assert t2 == (prefix + t2 + suffix)[|prefix|..|prefix| + |t2|];
  }

  /** Two stamps that differ in any field (time or random part) give different names,
      so the name retry loop only repeats on a true collision of stamps. */
  lemma SegmentNameInjective(prefix: string, s1: Stamp, s2: Stamp, compress: bool)
    requires SegmentName(prefix, s1, compress) == SegmentName(prefix, s2, compress)
    ensures s1 == s2
  {
    var suffix := ".json" + if compress then ".gz" else "";
    SegmentNameParts(prefix, s1, compress);
    SegmentNameParts(prefix, s2, compress);
    StripAffixes(prefix + "_", StampText(s1), StampText(s2), suffix);
    StampTextInjective(s1, s2);
  }

  lemma SegmentNameParts(prefix: string, st: Stamp, compress: bool)
    ensures SegmentName(prefix, st, compress) == (prefix + "_") + StampText(st) + (".json" + if compress then ".gz" else "")
  {
    var gz := if compress then ".gz" else "";
    assert SegmentName(prefix, st, compress) == FileName(prefix, st) + gz;
    assert FileName(prefix, st) == (prefix + "_") + (StampText(st) + ".json");
  }
}
