/** The main process's sensitive-content filter (the `filter-sensitive-content`
    handler): scan a text against the declared pattern categories, collect the
    matches, redact them in a working copy, and return a verdict.

    The regular expressions themselves are abstracted: a `Matcher` gives, for a
    category and a text, the sequence of matched strings in left-to-right
    order (what `text.match(pattern)` returns for a global pattern, with `[]`
    for no match). `pattern.test(text)` is "that sequence is non-empty": the
    patterns are global, but every call of the handler leaves their
    `lastIndex` at 0 (a failed `test` and a completed `match` both reset it),
    so each `test` starts from the beginning of the text. */
module Filter {
  import opened Wrappers
  import opened Text

  datatype Category = ApiKeys | Credentials | Financial | Emails | Phones

  /** Declaration order of the pattern table, which is the scan order. */
  const Declared: seq<Category> := [ApiKeys, Credentials, Financial, Emails, Phones]

  /** More than this many matches blocks the request. */
  const BlockThreshold: nat := 3

  /** Position of a category in the pattern table. */
  function Rank(c: Category): nat {
    match c
    case ApiKeys => 0
    case Credentials => 1
    case Financial => 2
    case Emails => 3
    case Phones => 4
  }

  /** The key of the category in the pattern table. */
  function Key(c: Category): string {
    match c
    case ApiKeys => "apiKeys"
    case Credentials => "credentials"
    case Financial => "financial"
    case Emails => "emails"
    case Phones => "phones"
  }

  /** The replacement text: the key upper-cased, bracketed, `_FILTERED`. */
  function Placeholder(c: Category): string {
    "[" + ToUpperAscii(Key(c)) + "_FILTERED]"
  }

  /** The stored values of the three toggles; `None` when the store has no
      value, in which case the handler's default `true` applies. */
  datatype FilterSettings = FilterSettings(
    apiKeys: Option<bool>,
    credentials: Option<bool>,
    financial: Option<bool>)

  /** Whether the handler scans a category: the toggle table has entries only
      for the first three categories, so `emails` and `phones` read as
      undefined and are never scanned. */
  function Toggle(settings: FilterSettings, c: Category): bool {
    match c
    case ApiKeys => settings.apiKeys.GetOr(true)
    case Credentials => settings.credentials.GetOr(true)
    case Financial => settings.financial.GetOr(true)
    case Emails => false
    case Phones => false
  }

  type Matcher = (Category, string) -> seq<string>

  datatype Match = Match(category: Category, text: string)

  datatype Verdict = Verdict(
    safe: bool,
    safeText: string,
    filteredCount: int,
    matches: seq<Match>,
    blocked: bool)

  // ---------------------------------------------------------------------
  // The handler as written: one pass over the categories, each recorded
  // match redacted in the working copy as it is recorded.
  // ---------------------------------------------------------------------

  /** The inner `forEach` over one category's matches. */
  function RecordMatches(c: Category, found: seq<string>, matches: seq<Match>, working: string)
    : (seq<Match>, string)
  {
    if |found| == 0 then (matches, working)
    else RecordMatches(c, found[1..], matches + [Match(c, found[0])],
                       ReplaceFirst(working, found[0], Placeholder(c)))
  }

  /** The outer `forEach` over the categories, from the original `text`. */
  function ScanCategories(cats: seq<Category>, settings: FilterSettings, matcher: Matcher,
                          text: string, matches: seq<Match>, working: string)
    : (seq<Match>, string)
  {
    if |cats| == 0 then (matches, working)
    else
      var step := Step(cats[0], settings, matcher, text, matches, working);
      ScanCategories(cats[1..], settings, matcher, text, step.0, step.1)
  }

  /** One iteration of the outer loop: `if (filterSettings[type] &&
      pattern.test(text))` record every match of the category. */
  function Step(c: Category, settings: FilterSettings, matcher: Matcher, text: string,
                matches: seq<Match>, working: string)
    : (seq<Match>, string)
  {
    if Toggle(settings, c) && |matcher(c, text)| > 0
    then RecordMatches(c, matcher(c, text), matches, working)
    else (matches, working)
  }

  // ---------------------------------------------------------------------
  // Reference definitions, independent of the working copy.
  // ---------------------------------------------------------------------

  /** Tag each matched string with its category. */
  function Tag(c: Category, found: seq<string>): (r: seq<Match>)
    ensures |r| == |found|
    ensures forall i :: 0 <= i < |r| ==> r[i] == Match(c, found[i])
  {
    if |found| == 0 then [] else [Match(c, found[0])] + Tag(c, found[1..])
  }

  /** The matches of the enabled categories among `cats`, category by
      category, each group in the order the matcher returns it. */
  function Expected(cats: seq<Category>, settings: FilterSettings, matcher: Matcher, text: string)
    : seq<Match>
  {
    if |cats| == 0 then []
    else Group(cats[0], settings, matcher, text) + Expected(cats[1..], settings, matcher, text)
  }

  /** The tagged matches of one category if its toggle is on, else none. */
  function Group(c: Category, settings: FilterSettings, matcher: Matcher, text: string)
    : (r: seq<Match>)
    ensures forall k :: 0 <= k < |r| ==> r[k].category == c
  {
    if Toggle(settings, c) then Tag(c, matcher(c, text)) else []
  }

  /** Apply the redactions of `ms` in order, each to the first remaining
      occurrence of its literal. */
  function Redact(s: string, ms: seq<Match>): string
    decreases |ms|
  {
    if |ms| == 0 then s
    else Redact(ReplaceFirst(s, ms[0].text, Placeholder(ms[0].category)), ms[1..])
  }

  lemma {:induction false} RecordMatchesIsTagAndRedact(c: Category, found: seq<string>,
                                                      matches: seq<Match>, working: string)
    ensures RecordMatches(c, found, matches, working).0 == matches + Tag(c, found)
    ensures RecordMatches(c, found, matches, working).1 == Redact(working, Tag(c, found))
  {
    if |found| > 0 {
      RecordMatchesIsTagAndRedact(c, found[1..], matches + [Match(c, found[0])],
                                  ReplaceFirst(working, found[0], Placeholder(c)));
      assert Tag(c, found)[1..] == Tag(c, found[1..]);
    }
  }

  lemma {:induction false} RedactAppend(s: string, a: seq<Match>, b: seq<Match>)
    ensures Redact(s, a + b) == Redact(Redact(s, a), b)
    decreases |a|
  {
    if |a| > 0 {
      assert (a + b)[1..] == a[1..] + b;
      RedactAppend(ReplaceFirst(s, a[0].text, Placeholder(a[0].category)), a[1..], b);
    } else {
      assert a + b == b;
    }
  }

  /** One step of the outer loop records the category's group. */
  lemma StepIsGroup(c: Category, settings: FilterSettings, matcher: Matcher, text: string,
                    matches: seq<Match>, working: string)
    ensures Step(c, settings, matcher, text, matches, working)
         == (matches + Group(c, settings, matcher, text),
             Redact(working, Group(c, settings, matcher, text)))
  {
    RecordMatchesIsTagAndRedact(c, matcher(c, text), matches, working);
    if !Toggle(settings, c) || |matcher(c, text)| == 0 {
      assert Group(c, settings, matcher, text) == [];
      assert matches + [] == matches;
    }
  }

  lemma {:induction false} ScanMatches(cats: seq<Category>, settings: FilterSettings,
                                      matcher: Matcher, text: string,
                                      matches: seq<Match>, working: string)
    ensures ScanCategories(cats, settings, matcher, text, matches, working).0
         == matches + Expected(cats, settings, matcher, text)
  {
    if |cats| > 0 {
      var group := Group(cats[0], settings, matcher, text);
      var rest := Expected(cats[1..], settings, matcher, text);
      var step := Step(cats[0], settings, matcher, text, matches, working);
      StepIsGroup(cats[0], settings, matcher, text, matches, working);
      ScanMatches(cats[1..], settings, matcher, text, step.0, step.1);
      ScanUnfold(cats, settings, matcher, text, matches, working);
      ConcatAssoc(matches, group, rest);
    } else {
      ConcatEmpty(matches);
    }
  }

  lemma {:induction false} ScanWorking(cats: seq<Category>, settings: FilterSettings,
                                      matcher: Matcher, text: string,
                                      matches: seq<Match>, working: string)
    ensures ScanCategories(cats, settings, matcher, text, matches, working).1
         == Redact(working, Expected(cats, settings, matcher, text))
  {
    if |cats| > 0 {
      var group := Group(cats[0], settings, matcher, text);
      var rest := Expected(cats[1..], settings, matcher, text);
      var step := Step(cats[0], settings, matcher, text, matches, working);
      StepIsGroup(cats[0], settings, matcher, text, matches, working);
      ScanWorking(cats[1..], settings, matcher, text, step.0, step.1);
      ScanUnfold(cats, settings, matcher, text, matches, working);
      RedactAppend(working, group, rest);
    }
  }

  lemma ConcatAssoc<T>(a: seq<T>, b: seq<T>, c: seq<T>)
    ensures a + b + c == a + (b + c)
  {
  }

  lemma ConcatEmpty<T>(a: seq<T>)
    ensures a + [] == a
  {
  }

  lemma ScanUnfold(cats: seq<Category>, settings: FilterSettings, matcher: Matcher,
                   text: string, matches: seq<Match>, working: string)
    requires |cats| > 0
    ensures var step := Step(cats[0], settings, matcher, text, matches, working);
      && ScanCategories(cats, settings, matcher, text, matches, working)
         == ScanCategories(cats[1..], settings, matcher, text, step.0, step.1)
      && Expected(cats, settings, matcher, text)
         == Group(cats[0], settings, matcher, text) + Expected(cats[1..], settings, matcher, text)
  {
  }

  /** The `filter-sensitive-content` handler. */
  function FilterSensitiveContent(settings: FilterSettings, matcher: Matcher, text: string)
    : (v: Verdict)
    ensures v.matches == Expected(Declared, settings, matcher, text)
    ensures v.safeText == Redact(text, v.matches)
    ensures v.filteredCount == |v.matches|
    ensures v.safe <==> |v.matches| == 0
    ensures v.blocked <==> |v.matches| > BlockThreshold
  {
    var r := ScanCategories(Declared, settings, matcher, text, [], text);
    ScanMatches(Declared, settings, matcher, text, [], text);
    ScanWorking(Declared, settings, matcher, text, [], text);
    assert [] + Expected(Declared, settings, matcher, text) == Expected(Declared, settings, matcher, text);
    Verdict(|r.0| == 0, r.1, |r.0|, r.0, |r.0| > BlockThreshold)
  }

  // ---------------------------------------------------------------------
  // Properties of the verdict.
  // ---------------------------------------------------------------------

  /** The toggles default to on when the store holds no value. */
  lemma DefaultTogglesOn(c: Category)
    ensures Toggle(FilterSettings(None, None, None), c)
        <==> c == ApiKeys || c == Credentials || c == Financial
  {
  }

  lemma {:induction false} ExpectedOnlyToggled(cats: seq<Category>, settings: FilterSettings,
                                              matcher: Matcher, text: string)
    ensures forall i :: 0 <= i < |Expected(cats, settings, matcher, text)| ==>
      var m := Expected(cats, settings, matcher, text)[i];
      Toggle(settings, m.category) && m.category in cats
  {
    if |cats| > 0 {
      ExpectedOnlyToggled(cats[1..], settings, matcher, text);
    }
  }

  /** Every recorded match belongs to a category whose toggle is on; in
      particular `emails` and `phones` are never detected. */
  lemma OnlyToggledCategories(settings: FilterSettings, matcher: Matcher, text: string)
    ensures forall m :: m in FilterSensitiveContent(settings, matcher, text).matches ==>
      Toggle(settings, m.category) && m.category != Emails && m.category != Phones
  {
    ExpectedOnlyToggled(Declared, settings, matcher, text);
  }

  /** The matches of one category, in order. */
  function OfCategory(ms: seq<Match>, c: Category): (r: seq<Match>)
    ensures |r| <= |ms|
  {
    if |ms| == 0 then []
    else (if ms[0].category == c then [ms[0]] else []) + OfCategory(ms[1..], c)
  }

  /** The matches not of one category, in order. */
  function WithoutCategory(ms: seq<Match>, c: Category): (r: seq<Match>)
    ensures |r| <= |ms|
  {
    if |ms| == 0 then []
    else (if ms[0].category != c then [ms[0]] else []) + WithoutCategory(ms[1..], c)
  }

  lemma {:induction false} OfCategoryAppend(a: seq<Match>, b: seq<Match>, c: Category)
    ensures OfCategory(a + b, c) == OfCategory(a, c) + OfCategory(b, c)
  {
    if |a| > 0 {
      assert (a + b)[1..] == a[1..] + b;
      OfCategoryAppend(a[1..], b, c);
      assert (a + b)[0] == a[0];
    } else {
      assert a + b == b;
    }
  }

  lemma {:induction false} WithoutCategoryAppend(a: seq<Match>, b: seq<Match>, c: Category)
    ensures WithoutCategory(a + b, c) == WithoutCategory(a, c) + WithoutCategory(b, c)
  {
    if |a| > 0 {
      assert (a + b)[1..] == a[1..] + b;
      WithoutCategoryAppend(a[1..], b, c);
      assert (a + b)[0] == a[0];
    } else {
      assert a + b == b;
    }
  }

  lemma {:induction false} OfCategoryTag(d: Category, found: seq<string>, c: Category)
    ensures OfCategory(Tag(d, found), c) == (if d == c then Tag(d, found) else [])
    ensures WithoutCategory(Tag(d, found), c) == (if d == c then [] else Tag(d, found))
  {
    if |found| > 0 {
      OfCategoryTag(d, found[1..], c);
      assert Tag(d, found)[1..] == Tag(d, found[1..]);
    }
  }

  lemma {:induction false} ExpectedOfCategory(cats: seq<Category>, settings: FilterSettings,
                                             matcher: Matcher, text: string, c: Category)
    requires c in cats
    requires forall i, j :: 0 <= i < j < |cats| ==> cats[i] != cats[j]
    ensures OfCategory(Expected(cats, settings, matcher, text), c)
         == (if Toggle(settings, c) then Tag(c, matcher(c, text)) else [])
  {
    var d := cats[0];
    var group := Group(d, settings, matcher, text);
    OfCategoryAppend(group, Expected(cats[1..], settings, matcher, text), c);
    OfCategoryTag(d, matcher(d, text), c);
    if d == c {
      assert c !in cats[1..] by {
        forall k | 0 <= k < |cats[1..]| ensures cats[1..][k] != c {
          assert cats[1..][k] == cats[k + 1];
        }
      }
      ExpectedOnlyToggled(cats[1..], settings, matcher, text);
      OfCategoryAbsent(Expected(cats[1..], settings, matcher, text), c);
    } else {
      assert c in cats[1..];
      ExpectedOfCategory(cats[1..], settings, matcher, text, c);
    }
  }

  lemma {:induction false} OfCategoryAbsent(ms: seq<Match>, c: Category)
    requires forall i :: 0 <= i < |ms| ==> ms[i].category != c
    ensures OfCategory(ms, c) == []
  {
    if |ms| > 0 {
      OfCategoryAbsent(ms[1..], c);
    }
  }

  /** Within the verdict, the matches of a category are exactly what its
      pattern finds in the original text, in order, when its toggle is on,
      and there are none when it is off. */
  lemma MatchesOfCategory(settings: FilterSettings, matcher: Matcher, text: string, c: Category)
    ensures OfCategory(FilterSensitiveContent(settings, matcher, text).matches, c)
         == (if Toggle(settings, c) then Tag(c, matcher(c, text)) else [])
  {
    assert c == Declared[Rank(c)];
    ExpectedOfCategory(Declared, settings, matcher, text, c);
  }

  /** Matches ordered by the rank of their category. */
  predicate Ranked(ms: seq<Match>) {
    forall i, j :: 0 <= i < j < |ms| ==> Rank(ms[i].category) <= Rank(ms[j].category)
  }

  lemma {:induction false} ExpectedRanked(cats: seq<Category>, settings: FilterSettings,
                                         matcher: Matcher, text: string)
    requires forall i, j :: 0 <= i < j < |cats| ==> Rank(cats[i]) < Rank(cats[j])
    ensures Ranked(Expected(cats, settings, matcher, text))
  {
    if |cats| > 0 {
      var d := cats[0];
      var group := Group(d, settings, matcher, text);
      var rest := Expected(cats[1..], settings, matcher, text);
      ExpectedRanked(cats[1..], settings, matcher, text);
      ExpectedOnlyToggled(cats[1..], settings, matcher, text);
      assert forall x :: x in cats[1..] ==> Rank(d) < Rank(x) by {
        forall x | x in cats[1..] ensures Rank(d) < Rank(x) {
          var k :| 0 <= k < |cats[1..]| && cats[1..][k] == x;
          assert cats[k + 1] == x;
        }
      }
      assert forall k :: 0 <= k < |rest| ==> Rank(d) < Rank(rest[k].category);
      RankedAppend(group, rest, Rank(d));
    }
  }

  lemma RankedAppend(a: seq<Match>, b: seq<Match>, r: nat)
    requires Ranked(b)
    requires forall k :: 0 <= k < |a| ==> Rank(a[k].category) == r
    requires forall k :: 0 <= k < |b| ==> r < Rank(b[k].category)
    ensures Ranked(a + b)
  {
    var e := a + b;
    forall i, j | 0 <= i < j < |e| ensures Rank(e[i].category) <= Rank(e[j].category) {
      if j < |a| {
        assert e[i] == a[i] && e[j] == a[j];
      } else if i < |a| {
        assert e[i] == a[i] && e[j] == b[j - |a|];
      } else {
        assert e[i] == b[i - |a|] && e[j] == b[j - |a|];
      }
    }
  }

  lemma DeclaredRanked()
    ensures forall i, j :: 0 <= i < j < |Declared| ==> Rank(Declared[i]) < Rank(Declared[j])
  {
    assert forall i :: 0 <= i < |Declared| ==> Rank(Declared[i]) == i;
  }

  /** The matches are grouped in declaration order of their categories. */
  lemma MatchesInDeclarationOrder(settings: FilterSettings, matcher: Matcher, text: string)
    ensures Ranked(FilterSensitiveContent(settings, matcher, text).matches)
  {
    DeclaredRanked();
    ExpectedRanked(Declared, settings, matcher, text);
  }

  /** Turn one category's toggle off (the two untoggled categories are
      already off). */
  function Disable(settings: FilterSettings, c: Category): (r: FilterSettings)
    ensures !Toggle(r, c)
    ensures forall d :: d != c ==> Toggle(r, d) == Toggle(settings, d)
  {
    match c
    case ApiKeys => settings.(apiKeys := Some(false))
    case Credentials => settings.(credentials := Some(false))
    case Financial => settings.(financial := Some(false))
    case Emails => settings
    case Phones => settings
  }

  lemma {:induction false} ExpectedDisable(cats: seq<Category>, settings: FilterSettings,
                                          matcher: Matcher, text: string, c: Category)
    ensures Expected(cats, Disable(settings, c), matcher, text)
         == WithoutCategory(Expected(cats, settings, matcher, text), c)
  {
    if |cats| > 0 {
      var d := cats[0];
      var group := Group(d, settings, matcher, text);
      ExpectedDisable(cats[1..], settings, matcher, text, c);
      WithoutCategoryAppend(group, Expected(cats[1..], settings, matcher, text), c);
      OfCategoryTag(d, matcher(d, text), c);
    }
  }

  /** Disabling a category removes exactly its matches from the verdict and
      leaves the others, in order. */
  lemma DisablingRemovesCategory(settings: FilterSettings, matcher: Matcher, text: string,
                                 c: Category)
    ensures FilterSensitiveContent(Disable(settings, c), matcher, text).matches
         == WithoutCategory(FilterSensitiveContent(settings, matcher, text).matches, c)
  {
    ExpectedDisable(Declared, settings, matcher, text, c);
  }

  /** With no match the text comes back unchanged and is reported safe. */
  lemma NoMatchesKeepsText(settings: FilterSettings, matcher: Matcher, text: string)
    requires forall c :: Toggle(settings, c) ==> matcher(c, text) == []
    ensures FilterSensitiveContent(settings, matcher, text).safe
    ensures FilterSensitiveContent(settings, matcher, text).safeText == text
  {
    ExpectedEmpty(Declared, settings, matcher, text);
  }

  lemma {:induction false} ExpectedEmpty(cats: seq<Category>, settings: FilterSettings,
                                        matcher: Matcher, text: string)
    requires forall c :: Toggle(settings, c) ==> matcher(c, text) == []
    ensures Expected(cats, settings, matcher, text) == []
  {
    if |cats| > 0 {
      ExpectedEmpty(cats[1..], settings, matcher, text);
      assert Tag(cats[0], []) == [];
    }
  }

  /** One redaction step replaces the first remaining occurrence of the
      literal with the placeholder and changes nothing else. */
  lemma RedactStep(s: string, m: Match)
    requires IndexOf(s, m.text) >= 0
    ensures var i := IndexOf(s, m.text);
      && Redact(s, [m]) == s[..i] + Placeholder(m.category) + s[i + |m.text|..]
      && forall j :: 0 <= j < i ==> !OccursAt(s, m.text, j)
  {
  }

  /** The upper-cased keys, written out. */
  function UpperName(c: Category): string {
    match c
    case ApiKeys => "APIKEYS"
    case Credentials => "CREDENTIALS"
    case Financial => "FINANCIAL"
    case Emails => "EMAILS"
    case Phones => "PHONES"
  }

  lemma UpperApiKeys()
    ensures ToUpperAscii(Key(ApiKeys)) == "APIKEYS"
  {
    var u := ToUpperAscii(Key(ApiKeys));
    assert forall i | 0 <= i < 7 :: u[i] == "APIKEYS"[i];
  }

  lemma UpperCredentials()
    ensures ToUpperAscii(Key(Credentials)) == "CREDENTIALS"
  {
    assert Key(Credentials) == "creden" + "tials";
    ToUpperAsciiAppend("creden", "tials");
    UpperCreden();
    UpperTials();
    assert "CREDEN" + "TIALS" == "CREDENTIALS";
  }

  lemma UpperCreden()
    ensures ToUpperAscii("creden") == "CREDEN"
  {
    var u := ToUpperAscii("creden");
    assert forall i | 0 <= i < 6 :: u[i] == "CREDEN"[i];
  }

  lemma UpperTials()
    ensures ToUpperAscii("tials") == "TIALS"
  {
    var u := ToUpperAscii("tials");
    assert forall i | 0 <= i < 5 :: u[i] == "TIALS"[i];
  }

  lemma UpperFinancial()
    ensures ToUpperAscii(Key(Financial)) == "FINANCIAL"
  {
    var u := ToUpperAscii(Key(Financial));
    assert forall i | 0 <= i < 9 :: u[i] == "FINANCIAL"[i];
  }

  lemma UpperEmails()
    ensures ToUpperAscii(Key(Emails)) == "EMAILS"
  {
    var u := ToUpperAscii(Key(Emails));
    assert forall i | 0 <= i < 6 :: u[i] == "EMAILS"[i];
  }

  lemma UpperPhones()
    ensures ToUpperAscii(Key(Phones)) == "PHONES"
  {
    var u := ToUpperAscii(Key(Phones));
    assert forall i | 0 <= i < 6 :: u[i] == "PHONES"[i];
  }

  /** The placeholders the handler writes: `[APIKEYS_FILTERED]`,
      `[CREDENTIALS_FILTERED]`, `[FINANCIAL_FILTERED]`, and so on. */
  lemma PlaceholderText(c: Category)
    ensures Placeholder(c) == "[" + UpperName(c) + "_FILTERED]"
  {
    match c
    case ApiKeys => UpperApiKeys();
    case Credentials => UpperCredentials();
    case Financial => UpperFinancial();
    case Emails => UpperEmails();
    case Phones => UpperPhones();
  }
}
