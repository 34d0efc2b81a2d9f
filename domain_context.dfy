/** `detect_domain_context` (backend/main.py): a hint for the analysis agent
    chosen from the column names by keyword. */
module DomainContext {
  import opened Text

  datatype Domain = Retail | Education | Hr | General

  const RetailKeywords: seq<string> := ["sales", "revenue", "profit", "cost", "qty"]
  const EducationKeywords: seq<string> := ["student", "marks", "grade", "attendance", "subject"]
  const HrKeywords: seq<string> := ["employee", "salary", "dept", "hiring"]

  /** The fixed context sentence of each domain: its name, the words
      " Context. Focus on" and its own focus list. */
  function ContextText(d: Domain): string
  {
    DomainName(d) + " Context. Focus on" + FocusText(d)
  }

  function DomainName(d: Domain): (r: string)
    ensures |r| > 0 && r[0] == Initial(d)
  {
    match d
    case Retail => "Retail/Sales"
    case Education => "Education"
    case Hr => "HR"
    case General => "General Data Analysis"
  }

  function FocusText(d: Domain): string
  {
    match d
    case Retail => ": Revenue trends, Top selling products, Profit margins."
    case Education => ": Student performance, Pass/Fail rates, Subject averages."
    case Hr => ": Headcount, Salary distribution, Attrition."
    case General => " patterns and outliers."
  }

  /** The lowercased column names joined by single spaces. */
  function JoinedColumns(columns: seq<string>): string
  {
    Join(LowerAll(columns), " ")
  }

  function LowerAll(columns: seq<string>): (r: seq<string>)
    ensures |r| == |columns| && forall i :: 0 <= i < |columns| ==> r[i] == Lower(columns[i])
  {
    seq(|columns|, i requires 0 <= i < |columns| => Lower(columns[i]))
  }

  /** Some keyword occurs in the text (as a substring, not as a word). */
  predicate AnyIn(keywords: seq<string>, text: string)
  {
    exists k :: 0 <= k < |keywords| && Contains(text, keywords[k])
  }

  /** Retail keywords are tested first, then education, then HR. */
  function DetectDomain(columns: seq<string>): Domain
  {
    var cols := JoinedColumns(columns);
    if AnyIn(RetailKeywords, cols) then Retail
    else if AnyIn(EducationKeywords, cols) then Education
    else if AnyIn(HrKeywords, cols) then Hr
    else General
  }

  function DetectDomainContext(columns: seq<string>): string
  {
    ContextText(DetectDomain(columns))
  }

  /** The four sentences are distinct, so the reply names the domain. */
  lemma ContextTextInjective(d: Domain, e: Domain)
    ensures ContextText(d) == ContextText(e) <==> d == e
  {
    if d != e {
      assert ContextText(d)[0] == DomainName(d)[0];
      assert ContextText(e)[0] == DomainName(e)[0];
    }
  }

  function Initial(d: Domain): char
  {
    match d
    case Retail => 'R'
    case Education => 'E'
    case Hr => 'H'
    case General => 'G'
  }

  /** An occurrence in one part is an occurrence in the joined text. */
  lemma {:induction false} JoinContainsPart(parts: seq<string>, sep: string, k: nat, sub: string)
    requires k < |parts| && Contains(parts[k], sub)
    ensures Contains(Join(parts, sep), sub)
    decreases |parts|
  {
    if |parts| > 1 {
      if k == 0 {
        ContainsInConcat(parts[0], sep + Join(parts[1..], sep), sub);
        assert parts[0] + sep + Join(parts[1..], sep) == parts[0] + (sep + Join(parts[1..], sep));
      } else {
        JoinContainsPart(parts[1..], sep, k - 1, sub);
        ContainsInConcat(sep, Join(parts[1..], sep), sub);
        ContainsInConcat(parts[0], sep + Join(parts[1..], sep), sub);
        assert parts[0] + sep + Join(parts[1..], sep) == parts[0] + (sep + Join(parts[1..], sep));
      }
    }
  }

  /** A retail keyword in any one column name, in any letter case, makes
      the context retail whatever the other columns say. */
  lemma RetailKeywordInColumn(columns: seq<string>, c: nat, k: nat)
    requires c < |columns| && k < |RetailKeywords|
    requires Contains(Lower(columns[c]), RetailKeywords[k])
    ensures DetectDomain(columns) == Retail
  {
    JoinContainsPart(LowerAll(columns), " ", c, RetailKeywords[k]);
  }

  /** A keyword of any of the three domains in some column name means the
      general fallback is not used. */
  lemma KeywordAvoidsGeneral(columns: seq<string>, c: nat, keywords: seq<string>, k: nat)
    requires keywords in {RetailKeywords, EducationKeywords, HrKeywords}
    requires c < |columns| && k < |keywords| && Contains(Lower(columns[c]), keywords[k])
    ensures DetectDomain(columns) != General
  {
    JoinContainsPart(LowerAll(columns), " ", c, keywords[k]);
  }

  /** Some column name, lowercased, contains a keyword of the list. */
  predicate ColumnHas(columns: seq<string>, keywords: seq<string>)
  {
    exists c, k :: 0 <= c < |columns| && 0 <= k < |keywords| && Contains(Lower(columns[c]), keywords[k])
  }

  /** No keyword contains the space that joins the column names, so a
      keyword is found in the joined text exactly when one column name
      holds it. */
  lemma AnyInJoinedIff(columns: seq<string>, keywords: seq<string>)
    requires keywords in {RetailKeywords, EducationKeywords, HrKeywords}
    ensures AnyIn(keywords, JoinedColumns(columns)) <==> ColumnHas(columns, keywords)
  {
    assert forall k :: 0 <= k < |keywords| ==> |keywords[k]| > 0 && ' ' !in keywords[k];
    if AnyIn(keywords, JoinedColumns(columns)) {
      var k :| 0 <= k < |keywords| && Contains(JoinedColumns(columns), keywords[k]);
      var c := JoinContainsOnlyParts(LowerAll(columns), ' ', keywords[k]);
      assert Contains(Lower(columns[c]), keywords[k]);
    }
    if ColumnHas(columns, keywords) {
      var c, k :| 0 <= c < |columns| && 0 <= k < |keywords| && Contains(Lower(columns[c]), keywords[k]);
      JoinContainsPart(LowerAll(columns), " ", c, keywords[k]);
    }
  }

  /** The domain read column by column: retail when some column name holds
      a retail keyword, else education, else HR, else general. In
      particular the general hint is given exactly when no column name holds
      any keyword. */
  lemma DetectByColumn(columns: seq<string>)
    ensures DetectDomain(columns) ==
      if ColumnHas(columns, RetailKeywords) then Retail
      else if ColumnHas(columns, EducationKeywords) then Education
      else if ColumnHas(columns, HrKeywords) then Hr
      else General
  {
    AnyInJoinedIff(columns, RetailKeywords);
    AnyInJoinedIff(columns, EducationKeywords);
    AnyInJoinedIff(columns, HrKeywords);
  }

  /** Education wins over HR: with no retail keyword anywhere, an education
      keyword in one column gives the education hint whatever HR keywords
      the other columns hold. */
  lemma EducationBeforeHr(columns: seq<string>, c: nat, k: nat)
    requires !ColumnHas(columns, RetailKeywords)
    requires c < |columns| && k < |EducationKeywords| && Contains(Lower(columns[c]), EducationKeywords[k])
    ensures DetectDomain(columns) == Education
  {
    DetectByColumn(columns);
  }

  /** The test does not depend on the letter case of the column names. */
  lemma DetectIgnoresCase(columns: seq<string>)
    ensures DetectDomain(LowerAll(columns)) == DetectDomain(columns)
  {
    forall i | 0 <= i < |columns| ensures Lower(Lower(columns[i])) == Lower(columns[i]) {
      LowerIdempotent(columns[i]);
    }
    assert LowerAll(LowerAll(columns)) == LowerAll(columns);
  }

  /** Matching is by substring: a column named "Costume" is taken as retail. */
  lemma SubstringMatch()
    ensures DetectDomain(["Costume"]) == Retail
  {
    assert Lower("Costume") == "costume";
    assert Contains("costume", "cost");
    RetailKeywordInColumn(["Costume"], 0, 3);
  }
}
