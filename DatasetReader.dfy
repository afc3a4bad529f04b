/** Column classification of the three-month seed quality table
    (read_custom_dataset.py, `process_for_airs_gseed`). A table is given by
    its columns' names and kinds; the cells only feed printed statistics
    and are not modelled. Lower-casing is ASCII only. */
module DatasetReader {
  import opened Common

  /** The dtype families the classification distinguishes. */
  datatype Kind = Numeric | DateTime | Other

  datatype Column = Column(name: string, kind: Kind)

  datatype Frame = Frame(columns: seq<Column>)

  /** The result dictionary: its four keys are the four fields. */
  datatype Processed = Processed(dataframe: Frame, numericCols: seq<string>, dateCols: seq<string>,
                                 qualityIndicators: seq<string>)

  // ---------------------------------------------------------------------
  // Strings

  function LowerChar(c: char): (d: char)
    ensures 'A' <= c <= 'Z' ==> d as int == c as int + 32
    ensures !('A' <= c <= 'Z') ==> d == c
  {
    if 'A' <= c <= 'Z' then (c as int + 32) as char else c
  }

  /** `str.lower()` on ASCII letters. */
  function Lower(s: string): (t: string)
    ensures |t| == |s|
    ensures forall i :: 0 <= i < |s| ==> t[i] == LowerChar(s[i])
  {
    if s == [] then [] else [LowerChar(s[0])] + Lower(s[1..])
  }

  /** `sub in s`, computed by trying each start position in turn. */
  function Contains(s: string, sub: string): bool
  {
    sub <= s || (s != [] && Contains(s[1..], sub))
  }

  /** `sub` occurs in `s` starting at position i. */
  predicate OccursAt(s: string, sub: string, i: int)
  {
    0 <= i && i + |sub| <= |s| && s[i..i + |sub|] == sub
  }

  /** `Contains` finds `sub` exactly when it occurs at some position of `s`. */
  lemma {:induction false} ContainsOccurs(s: string, sub: string)
    ensures Contains(s, sub) <==> exists i :: OccursAt(s, sub, i)
  {
    if sub <= s {
      assert OccursAt(s, sub, 0);
    } else if s != [] {
      ContainsOccurs(s[1..], sub);
      if Contains(s[1..], sub) {
        var i :| OccursAt(s[1..], sub, i);
        assert s[1..][i..i + |sub|] == s[i + 1..i + 1 + |sub|];
        assert OccursAt(s, sub, i + 1);
      }
      if exists i :: OccursAt(s, sub, i) {
        var i :| OccursAt(s, sub, i);
        if i == 0 {
          assert false;
        }
        assert s[1..][i - 1..i - 1 + |sub|] == s[i..i + |sub|];
        assert OccursAt(s[1..], sub, i - 1);
      }
    } else {
      assert sub != [];
    }
  }

  /** A name lacking one of the keyword's characters does not contain it. */
  lemma MissingCharNotContained(s: string, sub: string, j: nat)
    requires j < |sub| && sub[j] !in s
    ensures !Contains(s, sub)
  {
    ContainsOccurs(s, sub);
    forall i | 0 <= i && i + |sub| <= |s|
      ensures !OccursAt(s, sub, i)
    {
      assert s[i..i + |sub|][j] == s[i + j];
      assert s[i + j] in s;
    }
  }

  /** `any(x in name.lower() for x in keywords)`. */
  predicate MatchesAny(name: string, keywords: seq<string>)
  {
    exists k :: 0 <= k < |keywords| && Contains(Lower(name), keywords[k])
  }

  const DateKeywords: seq<string> := ["date", "time", "day", "month"]
  const QualityKeywords: seq<string> :=
    [KwQuality, KwHealth, KwGermination, KwMoisture, KwVigor, KwViability, KwAflatoxin, KwFungal]
  const KwQuality := "quality"
  const KwHealth := "health"
  const KwGermination := "germination"
  const KwMoisture := "moisture"
  const KwVigor := "vigor"
  const KwViability := "viability"
  const KwAflatoxin := "aflatoxin"
  const KwFungal := "fungal"

  // ---------------------------------------------------------------------
  // Order-preserving selection of column names

  function Names(cols: seq<Column>): (names: seq<string>)
    ensures |names| == |cols|
    ensures forall i :: 0 <= i < |cols| ==> names[i] == cols[i].name
  {
    if cols == [] then [] else [cols[0].name] + Names(cols[1..])
  }

  /** `[col for col in names if any(x in col.lower() for x in keywords)]`. */
  function NamesMatching(names: seq<string>, keywords: seq<string>): seq<string>
  {
    if names == [] then []
    else (if MatchesAny(names[0], keywords) then [names[0]] else []) + NamesMatching(names[1..], keywords)
  }

  /** The names of the columns of one kind, in column order. */
  function NamesOfKind(cols: seq<Column>, kind: Kind): seq<string>
  {
    if cols == [] then []
    else (if cols[0].kind == kind then [cols[0].name] else []) + NamesOfKind(cols[1..], kind)
  }

  /** `a` is `b` with some elements dropped and the rest kept in order. */
  predicate Subsequence(a: seq<string>, b: seq<string>)
  {
    if b == [] then a == []
    else (a != [] && a[0] == b[0] && Subsequence(a[1..], b[1..])) || Subsequence(a, b[1..])
  }

  /** The keyword filter keeps exactly the matching names, in their order. */
  lemma {:induction false} NamesMatchingExact(names: seq<string>, keywords: seq<string>)
    ensures Subsequence(NamesMatching(names, keywords), names)
    ensures forall n :: n in NamesMatching(names, keywords) <==> n in names && MatchesAny(n, keywords)
  {
    if names != [] {
      NamesMatchingExact(names[1..], keywords);
      var rest := NamesMatching(names[1..], keywords);
      if MatchesAny(names[0], keywords) {
        assert NamesMatching(names, keywords) == [names[0]] + rest;
        assert ([names[0]] + rest)[1..] == rest;
      } else {
        assert NamesMatching(names, keywords) == rest;
      }
      assert names == [names[0]] + names[1..];
    }
  }

  /** Some column is named n and has the given kind. */
  predicate HasColumn(cols: seq<Column>, n: string, kind: Kind)
  {
    exists i :: 0 <= i < |cols| && cols[i] == Column(n, kind)
  }

  /** The kind filter keeps exactly the names of columns of that kind, in order. */
  lemma {:induction false} NamesOfKindExact(cols: seq<Column>, kind: Kind)
    ensures Subsequence(NamesOfKind(cols, kind), Names(cols))
    ensures forall n :: n in NamesOfKind(cols, kind) <==> HasColumn(cols, n, kind)
  {
    if cols != [] {
      NamesOfKindExact(cols[1..], kind);
      var rest := NamesOfKind(cols[1..], kind);
      assert Names(cols)[1..] == Names(cols[1..]);
      if cols[0].kind == kind {
        assert NamesOfKind(cols, kind) == [cols[0].name] + rest;
        assert ([cols[0].name] + rest)[1..] == rest;
      } else {
        assert NamesOfKind(cols, kind) == rest;
      }
      forall n
        ensures HasColumn(cols, n, kind) <==> (cols[0] == Column(n, kind) || HasColumn(cols[1..], n, kind))
      {
        if HasColumn(cols, n, kind) {
          var i :| 0 <= i < |cols| && cols[i] == Column(n, kind);
          if i > 0 {
            assert cols[1..][i - 1] == cols[i];
          }
        }
        if HasColumn(cols[1..], n, kind) {
          var i :| 0 <= i < |cols[1..]| && cols[1..][i] == Column(n, kind);
          assert cols[i + 1] == cols[1..][i];
        }
      }
    }
  }

  // ---------------------------------------------------------------------
  // The classification

  function NumericCols(df: Frame): seq<string>
  {
    NamesOfKind(df.columns, Numeric)
  }

  /** The datetime columns, or, when there are none, the columns named like a date. */
  function DateCols(df: Frame): (cols: seq<string>)
    ensures NamesOfKind(df.columns, DateTime) != [] ==> cols == NamesOfKind(df.columns, DateTime)
    ensures NamesOfKind(df.columns, DateTime) == [] ==> cols == NamesMatching(Names(df.columns), DateKeywords)
  {
    var dt := NamesOfKind(df.columns, DateTime);
    if dt != [] then dt else NamesMatching(Names(df.columns), DateKeywords)
  }

  function QualityIndicators(df: Frame): seq<string>
  {
    NamesMatching(Names(df.columns), QualityKeywords)
  }

  /** The numeric columns whose statistics are printed: the first five. */
  function StatisticsCols(df: Frame): (cols: seq<string>)
    ensures |cols| == if |NumericCols(df)| < 5 then |NumericCols(df)| else 5
    ensures cols <= NumericCols(df)
  {
    var numeric := NumericCols(df);
    if |numeric| < 5 then numeric else numeric[..5]
  }

  /** `process_for_airs_gseed(df)`: None for no table, otherwise the
      table with its three column lists. */
  function Process(df: Option<Frame>): (r: Option<Processed>)
    ensures r.None? <==> df.None?
    ensures r.Some? ==> r.value.dataframe == df.value
  {
    if df.None? then None
    else Some(Processed(df.value, NumericCols(df.value), DateCols(df.value), QualityIndicators(df.value)))
  }

  /** Every list of the result is an order-preserving selection of the
      table's columns; the quality indicators are exactly the columns whose
      lower-cased name contains one of the quality keywords. */
  lemma ProcessedSelections(df: Frame)
    ensures var r := Process(Some(df)).value;
            Subsequence(r.numericCols, Names(df.columns)) &&
            Subsequence(r.dateCols, Names(df.columns)) &&
            Subsequence(r.qualityIndicators, Names(df.columns)) &&
            forall n :: n in r.qualityIndicators <==> n in Names(df.columns) && MatchesAny(n, QualityKeywords)
  {
    NamesOfKindExact(df.columns, Numeric);
    NamesOfKindExact(df.columns, DateTime);
    NamesMatchingExact(Names(df.columns), DateKeywords);
    NamesMatchingExact(Names(df.columns), QualityKeywords);
  }

  /** "vigor" is not a substring of "vigour index": its only 'v' is
      followed by "igou", not "igor". */
  lemma VigorNotInVigourIndex()
    ensures !Contains("vigour index", "vigor")
  {
    var v, kw := "vigour index", "vigor";
    ContainsOccurs(v, kw);
    assert v[1..] == "igour index";
    forall i | 0 <= i && i + |kw| <= |v|
      ensures !OccursAt(v, kw, i)
    {
      if i == 0 {
        assert v[i..i + |kw|][4] == 'u';
      } else {
        assert v[i] in v[1..];
        assert v[i..i + |kw|][0] == v[i];
      }
    }
  }

  /** No quality keyword occurs in "vigour index". */
  lemma NoQualityKeywordInVigourIndex(k: nat)
    requires k < |QualityKeywords|
    ensures !Contains("vigour index", QualityKeywords[k])
  {
    if k == 4 {
      VigorNotInVigourIndex();
    } else {
      // a character of the keyword that "vigour index" lacks
      var j: nat := if k == 2 then 3 else if k == 5 then 2 else 0;
      MissingCharNotContained("vigour index", QualityKeywords[k], j);
    }
  }

  /** Lower-casing changes nothing in a string without capital letters. */
  lemma {:induction false} LowerNoCapitals(s: string)
    requires forall i :: 0 <= i < |s| ==> !('A' <= s[i] <= 'Z')
    ensures Lower(s) == s
  {
    if s != [] {
      LowerNoCapitals(s[1..]);
      assert [s[0]] + s[1..] == s;
    }
  }

  lemma LowerCapitalised(c: char, rest: string)
    requires 'A' <= c <= 'Z'
    requires forall i :: 0 <= i < |rest| ==> !('A' <= rest[i] <= 'Z')
    ensures Lower([c] + rest) == [(c as int + 32) as char] + rest
  {
    assert ([c] + rest)[1..] == rest;
    LowerNoCapitals(rest);
  }

  lemma LowerVigourIndex()
    ensures Lower("Vigour index") == "vigour index"
  {
    var low := "vigour index";
    assert "Vigour index" == ['V'] + low[1..];
    LowerCapitalised('V', low[1..]);
  }

  lemma LowerGermination()
    ensures Lower("Germination %") == "germination %"
  {
    var low := "germination %";
    assert "Germination %" == ['G'] + low[1..];
    LowerCapitalised('G', low[1..]);
  }

  lemma GerminationInName()
    ensures Contains("germination %", QualityKeywords[2])
  {
    assert QualityKeywords[2] == KwGermination;
    assert "germination %" == KwGermination + " %";
  }

  /** A 'Vigour index' column is not a quality indicator. */
  lemma VigourIndexNotMatched()
    ensures !MatchesAny("Vigour index", QualityKeywords)
  {
    LowerVigourIndex();
    forall k | 0 <= k < |QualityKeywords|
      ensures !Contains("vigour index", QualityKeywords[k])
    {
      NoQualityKeywordInVigourIndex(k);
    }
    NoKeywordNoMatch("Vigour index", "vigour index", QualityKeywords);
  }

  lemma NoKeywordNoMatch(name: string, low: string, keywords: seq<string>)
    requires Lower(name) == low
    requires forall k :: 0 <= k < |keywords| ==> !Contains(low, keywords[k])
    ensures !MatchesAny(name, keywords)
  {
  }

  /** A 'Germination %' column is a quality indicator. */
  lemma GerminationMatched()
    ensures MatchesAny("Germination %", QualityKeywords)
  {
    LowerGermination();
    GerminationInName();
  }
}
