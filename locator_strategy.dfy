/** The multi-locator fallback of `LocatorUtility`: try each `(type, value)` candidate in turn and
    return the first locator that becomes visible, or fail with a numbered summary of every attempt.
    The page is an oracle: `attempt(locator)` says what waiting for the locator to become visible did. */
module LocatorStrategy {
  import opened Wrappers
  import opened Text
  import opened Values

  /** One candidate: the `type` and `value` entries of a locator dictionary (None when the key is absent). */
  datatype LocatorEntry = LocatorEntry(kind: Option<string>, value: Option<string>)

  /** The selector strategies the utility understands. */
  datatype Strategy = XPath | Css | Id | TextMatch | Role

  /** What a Playwright locator is built from: `page.locator(selector)`, `get_by_text`, `get_by_role`. */
  datatype Locator = Selector(selector: string) | ByText(text: string) | ByRole(role: string)

  /** The outcome of waiting for a locator to become visible. */
  datatype Attempt = Visible | TimedOut | Raised(message: string)

  /** A browser action performed on a found element. */
  datatype Action = Clear(target: Locator) | Fill(target: Locator, text: string)

  /** `locator_dict.get('type', '').lower()` */
  function TypeOf(e: LocatorEntry): string {
    Lower(e.kind.GetOr(""))
  }

  /** `locator_dict.get('value', '')` */
  function ValueOf(e: LocatorEntry): string {
    e.value.GetOr("")
  }

  function StrategyOf(t: string): Option<Strategy> {
    if t == "xpath" then Some(XPath)
    else if t == "css" then Some(Css)
    else if t == "id" then Some(Id)
    else if t == "text" then Some(TextMatch)
    else if t == "role" then Some(Role)
    else None
  }

  function MakeLocator(s: Strategy, v: string): Locator {
    match s
    case XPath => Selector("xpath=" + v)
    case Css => Selector(v)
    case Id => Selector("#" + v)
    case TextMatch => ByText(v)
    case Role => ByRole(v)
  }

  /** An entry that is actually tried: a non-empty value and a known type. */
  predicate IsCandidate(e: LocatorEntry) {
    ValueOf(e) != "" && StrategyOf(TypeOf(e)).Some?
  }

  function LocatorOf(e: LocatorEntry): Locator
    requires IsCandidate(e)
  {
    MakeLocator(StrategyOf(TypeOf(e)).value, ValueOf(e))
  }

  predicate Succeeds(e: LocatorEntry, attempt: Locator -> Attempt) {
    IsCandidate(e) && attempt(LocatorOf(e)) == Visible
  }

  /** The line recorded for a candidate whose attempt failed. */
  function FailureLine(e: LocatorEntry, a: Attempt): string {
    Upper(TypeOf(e)) + ": " + ValueOf(e) + " - " +
    (match a
     case Raised(m) => m
     case _ => "Element not visible within timeout")
  }

  /** Index of the first entry that is tried and becomes visible. */
  function FirstSuccess(s: seq<LocatorEntry>, attempt: Locator -> Attempt): (r: Option<nat>)
    ensures r.Some? ==> r.value < |s| && Succeeds(s[r.value], attempt)
  {
    if s == [] then None
    else
      match FirstSuccess(s[..|s| - 1], attempt)
      case Some(k) => Some(k)
      case None => if Succeeds(s[|s| - 1], attempt) then Some(|s| - 1) else None
  }

  /** Indices of the entries that are tried, in list order. */
  function Candidates(s: seq<LocatorEntry>): (r: seq<nat>)
    ensures forall j :: 0 <= j < |r| ==> r[j] < |s|
  {
    if s == [] then []
    else Candidates(s[..|s| - 1]) + (if IsCandidate(s[|s| - 1]) then [|s| - 1] else [])
  }

  /** The error list: one line per tried entry that did not become visible, in attempt order. */
  function Errors(s: seq<LocatorEntry>, attempt: Locator -> Attempt): seq<string> {
    if s == [] then []
    else
      var e := s[|s| - 1];
      Errors(s[..|s| - 1], attempt) +
      (if IsCandidate(e) && attempt(LocatorOf(e)) != Visible then [FailureLine(e, attempt(LocatorOf(e)))] else [])
  }

  function Header(name: string, total: nat): string {
    name + ": All " + NatToString(total) + " locator(s) failed:\n"
  }

  function NumberedLine(k: nat, error: string): string {
    "  " + NatToString(k) + ". " + error + "\n"
  }

  function NumberedLines(errors: seq<string>): seq<string> {
    seq(|errors|, k requires 0 <= k < |errors| => NumberedLine(k + 1, errors[k]))
  }

  /** The failure summary before `strip()`. */
  function SummaryText(name: string, total: nat, errors: seq<string>): string {
    Header(name, total) + Concat(NumberedLines(errors))
  }

  /** The message raised when nothing succeeds: the summary, stripped. */
  function FailureMessage(name: string, total: nat, errors: seq<string>): string {
    Strip(SummaryText(name, total, errors))
  }

  /** What `find_element` returns or raises. */
  function FindSpec(s: seq<LocatorEntry>, name: string, attempt: Locator -> Attempt): Result<Locator, Exception> {
    if s == [] then Err(ValueError(name + ": No locators provided"))
    else
      match FirstSuccess(s, attempt)
      case Some(k) => Ok(LocatorOf(s[k]))
      case None => Err(Error(FailureMessage(name, |s|, Errors(s, attempt))))
  }

  /** Builds the summary the way the source does, one `+=` per error. */
  method BuildSummary(name: string, total: nat, errors: seq<string>) returns (summary: string)
    ensures summary == SummaryText(name, total, errors)
  {
    summary := Header(name, total);
    var i := 0;
    while i < |errors|
      invariant 0 <= i <= |errors|
      invariant summary == Header(name, total) + Concat(NumberedLines(errors[..i]))
    {
      assert NumberedLines(errors[..i + 1]) == NumberedLines(errors[..i]) + [NumberedLine(i + 1, errors[i])];
      summary := summary + NumberedLine(i + 1, errors[i]);
      i := i + 1;
    }
    assert errors[..i] == errors;
  }

  /** `LocatorUtility.find_element`. The ghost `tried` lists the indices of the entries attempted. */
  method FindElement(s: seq<LocatorEntry>, name: string, attempt: Locator -> Attempt)
    returns (r: Result<Locator, Exception>, ghost tried: seq<nat>)
    ensures r == FindSpec(s, name, attempt)
    ensures tried == match FirstSuccess(s, attempt)
                     case Some(k) => Candidates(s[..k + 1])
                     case None => Candidates(s)
  {
    tried := [];
    if |s| == 0 {
      r := Err(ValueError(name + ": No locators provided"));
      return;
    }
    var errors: seq<string> := [];
    var i := 0;
    while i < |s|
      invariant 0 <= i <= |s|
      invariant FirstSuccess(s[..i], attempt) == None
      invariant errors == Errors(s[..i], attempt)
      invariant tried == Candidates(s[..i])
    {
      PrefixStep(s, i, attempt);
      var kind := Lower(s[i].kind.GetOr(""));
      var value := s[i].value.GetOr("");
      if value == "" {
        i := i + 1;
        continue;
      }
      var strategy := StrategyOf(kind);
      if strategy.None? {
        i := i + 1;
        continue;
      }
      var loc := MakeLocator(strategy.value, value);
      assert IsCandidate(s[i]) && loc == LocatorOf(s[i]);
      tried := tried + [i];
      var outcome := attempt(loc);
      if outcome == Visible {
        assert FirstSuccess(s[..i + 1], attempt) == Some(i);
        assert Candidates(s[..i + 1]) == tried;
        FirstSuccessOfPrefix(s, i + 1, attempt);
        r := Ok(loc);
        return;
      }
      var line := Upper(kind) + ": " + value + " - ";
      match outcome {
        case TimedOut => line := line + "Element not visible within timeout";
        case Raised(m) => line := line + m;
      }
      errors := errors + [line];
      i := i + 1;
    }
    assert s[..i] == s;
    var summary := BuildSummary(name, |s|, errors);
    r := Err(Error(Strip(summary)));
    assert Strip(summary) == FailureMessage(name, |s|, errors);
  }

  /** Extending a prefix by one entry extends the search, the errors and the tried entries by
      what that entry contributes. */
  lemma PrefixStep(s: seq<LocatorEntry>, i: nat, attempt: Locator -> Attempt)
    requires i < |s|
    ensures FirstSuccess(s[..i + 1], attempt) ==
            if FirstSuccess(s[..i], attempt).Some? then FirstSuccess(s[..i], attempt)
            else if Succeeds(s[i], attempt) then Some(i) else None
    ensures Errors(s[..i + 1], attempt) ==
            Errors(s[..i], attempt) +
            (if IsCandidate(s[i]) && attempt(LocatorOf(s[i])) != Visible then [FailureLine(s[i], attempt(LocatorOf(s[i])))] else [])
    ensures Candidates(s[..i + 1]) == Candidates(s[..i]) + (if IsCandidate(s[i]) then [i] else [])
  {
    assert s[..i + 1][..i] == s[..i];
  }

  /** A success found in a prefix is the first success of the whole list. */
  lemma {:induction false} FirstSuccessOfPrefix(s: seq<LocatorEntry>, n: nat, attempt: Locator -> Attempt)
    requires 0 < n <= |s| && FirstSuccess(s[..n], attempt).Some?
    ensures FirstSuccess(s, attempt) == FirstSuccess(s[..n], attempt)
    ensures FirstSuccess(s, attempt).value == n - 1 ==> FirstSuccess(s[..n - 1], attempt) == None
    decreases |s| - n
  {
    if n < |s| {
      assert s[..n + 1][..n] == s[..n];
      assert s[..n][..n - 1] == s[..n - 1];
      FirstSuccessOfPrefix(s, n + 1, attempt);
    } else {
      assert s[..n] == s;
    }
  }

  /** `FirstSuccess` finds exactly the first entry, in list order, that is tried and becomes visible;
      when it finds nothing, no entry succeeds. */
  lemma {:induction false} FirstSuccessIsFirst(s: seq<LocatorEntry>, attempt: Locator -> Attempt)
    ensures match FirstSuccess(s, attempt)
            case Some(k) =>
              k < |s| && Succeeds(s[k], attempt) && forall j :: 0 <= j < k ==> !Succeeds(s[j], attempt)
            case None => forall j :: 0 <= j < |s| ==> !Succeeds(s[j], attempt)
  {
    if s != [] {
      var p := s[..|s| - 1];
      FirstSuccessIsFirst(p, attempt);
      assert forall j :: 0 <= j < |p| ==> p[j] == s[j];
    }
  }

  /** The tried entries are exactly the candidates, listed once each in increasing order. */
  lemma {:induction false} CandidatesAreTried(s: seq<LocatorEntry>)
    ensures forall j :: 0 <= j < |s| ==> (j in Candidates(s) <==> IsCandidate(s[j]))
    ensures forall a, b :: 0 <= a < b < |Candidates(s)| ==> Candidates(s)[a] < Candidates(s)[b]
  {
    if s != [] {
      var p := s[..|s| - 1];
      CandidatesAreTried(p);
      assert forall j :: 0 <= j < |p| ==> p[j] == s[j];
    }
  }

  /** When nothing becomes visible, every tried entry contributes exactly one error line, skipped
      entries none, so there are at most as many errors as entries. */
  lemma {:induction false} ErrorCount(s: seq<LocatorEntry>, attempt: Locator -> Attempt)
    requires FirstSuccess(s, attempt) == None
    ensures |Errors(s, attempt)| == |Candidates(s)| <= |s|
  {
    if s != [] {
      var p := s[..|s| - 1];
      assert FirstSuccess(p, attempt) == None;
      ErrorCount(p, attempt);
    }
  }

  /** The locator of the first entry that succeeds, if any. */
  function Found(s: seq<LocatorEntry>, attempt: Locator -> Attempt): Option<Locator> {
    match FirstSuccess(s, attempt)
    case Some(k) => Some(LocatorOf(s[k]))
    case None => None
  }

  /** Appending an entry: an earlier success stands, otherwise the new entry decides. */
  lemma FoundSnoc(p: seq<LocatorEntry>, x: LocatorEntry, attempt: Locator -> Attempt)
    ensures Found(p + [x], attempt) ==
            if Found(p, attempt).Some? then Found(p, attempt)
            else if Succeeds(x, attempt) then Some(LocatorOf(x)) else None
  {
    assert (p + [x])[..|p|] == p;
    match FirstSuccess(p, attempt) {
      case Some(k) => assert (p + [x])[k] == p[k];
      case None =>
    }
  }

  /** An entry that is skipped, wherever it sits in the list, changes neither the locator found
      nor the error lines nor the number of entries tried. */
  lemma {:induction false} SkippedEntryInvisible(s: seq<LocatorEntry>, e: LocatorEntry, t: seq<LocatorEntry>,
                                                 attempt: Locator -> Attempt)
    requires !IsCandidate(e)
    ensures Found(s + [e] + t, attempt) == Found(s + t, attempt)
    ensures Errors(s + [e] + t, attempt) == Errors(s + t, attempt)
    ensures |Candidates(s + [e] + t)| == |Candidates(s + t)|
    decreases |t|
  {
    var u := s + [e] + t;
    var w := s + t;
    if t == [] {
      assert u == s + [e] && w == s;
      FoundSnoc(s, e, attempt);
      assert u[..|s|] == s;
    } else {
      var t' := t[..|t| - 1];
      var x := t[|t| - 1];
      SkippedEntryInvisible(s, e, t', attempt);
      assert u == (s + [e] + t') + [x] && w == (s + t') + [x];
      assert u[..|u| - 1] == s + [e] + t' && w[..|w| - 1] == s + t';
      FoundSnoc(s + [e] + t', x, attempt);
      FoundSnoc(s + t', x, attempt);
    }
  }

  /** So `find_element` succeeds with or without a skipped entry, with the same locator. An empty
      list raises ValueError, whatever the name. */
  lemma SkippedEntriesIgnored(s: seq<LocatorEntry>, e: LocatorEntry, t: seq<LocatorEntry>,
                              name: string, attempt: Locator -> Attempt)
    requires !IsCandidate(e)
    ensures s + t != [] ==>
              (FindSpec(s + [e] + t, name, attempt).Ok? <==> FindSpec(s + t, name, attempt).Ok?) &&
              (FindSpec(s + t, name, attempt).Ok? ==>
                 FindSpec(s + [e] + t, name, attempt).value == FindSpec(s + t, name, attempt).value)
    ensures FindSpec([], name, attempt) == Err(ValueError(name + ": No locators provided"))
  {
    SkippedEntryInvisible(s, e, t, attempt);
    FoundSpec(s + [e] + t, name, attempt);
    if s + t != [] { FoundSpec(s + t, name, attempt); }
  }

  /** `find_element` on a non-empty list succeeds exactly with the locator `Found` names. */
  lemma FoundSpec(s: seq<LocatorEntry>, name: string, attempt: Locator -> Attempt)
    requires s != []
    ensures FindSpec(s, name, attempt).Ok? <==> Found(s, attempt).Some?
    ensures FindSpec(s, name, attempt).Ok? ==> FindSpec(s, name, attempt).value == Found(s, attempt).value
  {
  }

  /** The message raised when every candidate fails starts with the element name and
      "All N locator(s) failed", N counting every entry including the skipped ones
      (provided the name does not itself start with white space). */
  lemma SummaryStartsWithCount(s: seq<LocatorEntry>, name: string, attempt: Locator -> Attempt)
    requires s != [] && FirstSuccess(s, attempt) == None
    requires name == "" || !IsSpace(name[0])
    ensures FindSpec(s, name, attempt).Err?
    ensures name + ": All " + NatToString(|s|) + " locator(s) failed:" <= FindSpec(s, name, attempt).error.message
  {
    SummaryPrefix(name, |s|, Errors(s, attempt));
  }

  lemma SummaryPrefix(name: string, total: nat, errors: seq<string>)
    requires name == "" || !IsSpace(name[0])
    ensures name + ": All " + NatToString(total) + " locator(s) failed:" <= Strip(SummaryText(name, total, errors))
  {
    var p := name + ": All " + NatToString(total) + " locator(s) failed:";
    var lines := Concat(NumberedLines(errors));
    var rest := "\n" + lines;
    assert Header(name, total) == p + "\n";
    assert (p + "\n") + lines == p + rest;
    assert p[|p| - 1] == ':';
    assert p[0] == if name == "" then ':' else name[0];
    StripKeepsPrefix(p, rest);
  }

  /** The locator built for an entry depends only on the lower-cased type: `id` gives "#" + value,
      `xpath` gives "xpath=" + value, `css` the value itself, `text` and `role` the text and role
      queries, in whatever letter case the type is written. */
  lemma SelectorConstruction(t: string, v: string)
    requires v != ""
    ensures Lower(t) == "id" ==> LocatorOf(LocatorEntry(Some(t), Some(v))) == Selector("#" + v)
    ensures Lower(t) == "xpath" ==> LocatorOf(LocatorEntry(Some(t), Some(v))) == Selector("xpath=" + v)
    ensures Lower(t) == "css" ==> LocatorOf(LocatorEntry(Some(t), Some(v))) == Selector(v)
    ensures Lower(t) == "text" ==> LocatorOf(LocatorEntry(Some(t), Some(v))) == ByText(v)
    ensures Lower(t) == "role" ==> LocatorOf(LocatorEntry(Some(t), Some(v))) == ByRole(v)
    ensures IsCandidate(LocatorEntry(Some(t), Some(v))) <==> IsCandidate(LocatorEntry(Some(Upper(t)), Some(v)))
    ensures IsCandidate(LocatorEntry(Some(t), Some(v))) ==>
              LocatorOf(LocatorEntry(Some(Upper(t)), Some(v))) == LocatorOf(LocatorEntry(Some(t), Some(v)))
  {
    LowerIgnoresCase(t);
  }

  /** `LocatorUtility.is_visible`: a failed search yields false instead of an exception. */
  method IsVisible(s: seq<LocatorEntry>, name: string, attempt: Locator -> Attempt, visibleNow: Locator -> bool)
    returns (b: bool)
    ensures b <==> FindSpec(s, name, attempt).Ok? && visibleNow(FindSpec(s, name, attempt).value)
    ensures b ==> exists k :: 0 <= k < |s| && Succeeds(s[k], attempt)
  {
    var r, _ := FindElement(s, name, attempt);
    match r {
      case Ok(loc) =>
        b := visibleNow(loc);
      case Err(_) =>
        b := false;
    }
    if b {
      FirstSuccessIsFirst(s, attempt);
    }
  }

  /** `LocatorUtility.type_text`: the actions sent to the found element, clearing first when asked. */
  method TypeText(s: seq<LocatorEntry>, text: string, name: string, clearFirst: bool, attempt: Locator -> Attempt)
    returns (r: Result<seq<Action>, Exception>)
    ensures r.Err? <==> FindSpec(s, name, attempt).Err?
    ensures r.Err? ==> r.error == FindSpec(s, name, attempt).error
    ensures r.Ok? ==> var loc := FindSpec(s, name, attempt).value;
                      |r.value| == (if clearFirst then 2 else 1) &&
                      r.value[|r.value| - 1] == Fill(loc, text) &&
                      (clearFirst ==> r.value[0] == Clear(loc))
  {
    var found, _ := FindElement(s, name, attempt);
    match found {
      case Err(e) =>
        r := Err(e);
      case Ok(loc) =>
        var actions: seq<Action> := [];
        if clearFirst {
          actions := actions + [Clear(loc)];
        }
        actions := actions + [Fill(loc, text)];
        r := Ok(actions);
    }
  }
}
