/** The claim guard's verdict on a generated reply, the judge's parsed adjudication, and what a suppression pages. */
module Alignment {
  import opened Text

  datatype Category = Identity | Advice | Biographical | Relationship
  datatype Claim = Claim(text: string, category: Category) {
    predicate Policy() { category in {Identity, Advice} }
  }
  datatype Disposition = Passed | Suppressed
  datatype Verdict = Supported | Fabricated | Unavailable
  datatype Adjudication = NotRun | Ran(verdict: Verdict)

  function Judgeable(claims: seq<Claim>): seq<Claim> {
    if claims == [] then []
    else (if claims[0].Policy() then [] else [claims[0]]) + Judgeable(claims[1..])
  }

  lemma {:induction false} JudgeableMember(claims: seq<Claim>, c: Claim)
    ensures c in Judgeable(claims) <==> c in claims && !c.Policy()
  {
    if claims != [] {
      JudgeableMember(claims[1..], c);
    }
  }

  /** Drops every claim whose text is in the cleared set. */
  function Without(claims: seq<Claim>, cleared: set<string>): seq<Claim> {
    if claims == [] then []
    else (if claims[0].text in cleared then [] else [claims[0]]) + Without(claims[1..], cleared)
  }

  lemma {:induction false} WithoutMember(claims: seq<Claim>, cleared: set<string>, c: Claim)
    ensures c in Without(claims, cleared) <==> c in claims && c.text !in cleared
  {
    if claims != [] {
      WithoutMember(claims[1..], cleared, c);
    }
  }

  // ---- the judge's answer -------------------------------------------------------------

  /** One decoded entry of the judge's JSON; other verdict words are dropped by the parser. */
  datatype Ruling = RuledSupported | RuledFabricated | RuledOther
  datatype Entry = Entry(claim: string, ruling: Ruling)

  /** The punctuation-insensitive echo of a claim: lower-case letters and digits only. */
  function Bare(text: string): string {
    if text == "" then ""
    else var c := LowerChar(text[0]);
         (if 'a' <= c <= 'z' || '0' <= c <= '9' then [c] else []) + Bare(text[1..])
  }

  function Verbatim(text: string): string { text }

  predicate Usable(e: Entry) {
    Strip(e.claim) != "" && !e.ruling.RuledOther?
  }

  /** The last usable entry for a key wins, as successive writes into a dictionary do. */
  function Last(entries: seq<Entry>, key: string -> string, wanted: string): Ruling {
    if entries == [] then RuledOther
    else
      var e := entries[|entries| - 1];
      if Usable(e) && key(Strip(e.claim)) == wanted then e.ruling else Last(entries[..|entries| - 1], key, wanted)
  }

  /** Exact echo first, then the punctuation-insensitive one; RuledOther means the claim was not matched. */
  function RulingOn(entries: seq<Entry>, text: string): Ruling {
    var exact := Last(entries, Verbatim, text);
    if exact.RuledOther? then Last(entries, Bare, Bare(text)) else exact
  }

  predicate LetterOrDigit(c: char) {
    'a' <= c <= 'z' || 'A' <= c <= 'Z' || '0' <= c <= '9'
  }

  /** Two texts echo each other when their letters and digits agree one by one, case and everything between aside. */
  predicate Echo(a: string, b: string)
    decreases |a| + |b|
  {
    if a != "" && !LetterOrDigit(a[0]) then Echo(a[1..], b)
    else if b != "" && !LetterOrDigit(b[0]) then Echo(a, b[1..])
    else if a == "" || b == "" then a == b
    else SameLetter(a[0], b[0]) && Echo(a[1..], b[1..])
  }

  lemma BareStep(a: string)
    requires a != ""
    ensures Bare(a) == if LetterOrDigit(a[0]) then [LowerChar(a[0])] + Bare(a[1..]) else Bare(a[1..])
  {
    assert [] + Bare(a[1..]) == Bare(a[1..]);
  }

  /** The punctuation-insensitive keys of two texts are equal exactly when the texts echo each other. */
  lemma {:induction false} BareIsEcho(a: string, b: string)
    ensures Bare(a) == Bare(b) <==> Echo(a, b)
    decreases |a| + |b|
  {
    hide LowerChar;
    if a != "" {
      BareStep(a);
    }
    if b != "" {
      BareStep(b);
    }
    if a != "" && !LetterOrDigit(a[0]) {
      BareIsEcho(a[1..], b);
    } else if b != "" && !LetterOrDigit(b[0]) {
      BareIsEcho(a, b[1..]);
    } else if a != "" && b != "" {
      BareIsEcho(a[1..], b[1..]);
      SameLowerChar(a[0], b[0]);
      assert ([LowerChar(a[0])] + Bare(a[1..]))[1..] == Bare(a[1..]);
      assert ([LowerChar(b[0])] + Bare(b[1..]))[1..] == Bare(b[1..]);
    }
  }

  lemma SameLowerChar(c: char, d: char)
    ensures LowerChar(c) == LowerChar(d) <==> SameLetter(c, d)
  {
  }

  /** The entry rules on the text: named in full, or, loosely, echoed. */
  predicate RulesOn(e: Entry, text: string, loosely: bool) {
    && Strip(e.claim) != "" && e.ruling in {RuledSupported, RuledFabricated}
    && (if loosely then Echo(Strip(e.claim), text) else Strip(e.claim) == text)
  }

  predicate LastRuling(entries: seq<Entry>, i: nat, text: string, loosely: bool) {
    && i < |entries| && RulesOn(entries[i], text, loosely)
    && forall j | i < j < |entries| :: !RulesOn(entries[j], text, loosely)
  }

  function Key(loosely: bool): string -> string {
    if loosely then Bare else Verbatim
  }

  lemma RulesOnByKey(e: Entry, text: string, loosely: bool)
    ensures RulesOn(e, text, loosely) <==> Usable(e) && Key(loosely)(Strip(e.claim)) == Key(loosely)(text)
  {
    BareIsEcho(Strip(e.claim), text);
    hide Strip, Bare, Echo;
  }

  lemma LastRulingSnoc(front: seq<Entry>, e: Entry, text: string, loosely: bool, i: nat)
    ensures LastRuling(front + [e], i, text, loosely)
            <==> if RulesOn(e, text, loosely) then i == |front| else LastRuling(front, i, text, loosely)
  {
    hide RulesOn;
    var all := front + [e];
    assert all[|front|] == e && forall j | 0 <= j < |front| :: all[j] == front[j];
  }

  lemma {:induction false} LastIs(entries: seq<Entry>, text: string, loosely: bool)
    ensures var last := Last(entries, Key(loosely), Key(loosely)(text));
            && (last == RuledOther <==> forall i | 0 <= i < |entries| :: !RulesOn(entries[i], text, loosely))
            && (forall i: nat | LastRuling(entries, i, text, loosely) :: entries[i].ruling == last)
  {
    hide RulesOn, LastRuling, Key, Strip;
    if entries != [] {
      var n := |entries| - 1;
      var front := entries[..n];
      LastIs(front, text, loosely);
      RulesOnByKey(entries[n], text, loosely);
      assert entries == front + [entries[n]];
      assert forall i | 0 <= i < n :: entries[i] == front[i];
      forall i: nat
        ensures LastRuling(entries, i, text, loosely)
                <==> if RulesOn(entries[n], text, loosely) then i == n else LastRuling(front, i, text, loosely)
        ensures LastRuling(front, i, text, loosely) ==> i < n
      {
        LastRulingSnoc(front, entries[n], text, loosely, i);
        LastRulingBound(front, i, text, loosely);
      }
    } else {
      forall i: nat
        ensures !LastRuling(entries, i, text, loosely)
      {
        LastRulingBound(entries, i, text, loosely);
      }
    }
  }

  lemma LastRulingBound(entries: seq<Entry>, i: nat, text: string, loosely: bool)
    ensures LastRuling(entries, i, text, loosely) ==> i < |entries|
  {
  }

  /** What the judge is taken to have said of a claim: the last entry that names it in full, else the last that echoes
      it, else nothing. */
  lemma RulingIsTheLastOne(entries: seq<Entry>, text: string)
    ensures forall i: nat | LastRuling(entries, i, text, false) :: RulingOn(entries, text) == entries[i].ruling
    ensures (forall i | 0 <= i < |entries| :: !RulesOn(entries[i], text, false)) ==>
              forall i: nat | LastRuling(entries, i, text, true) :: RulingOn(entries, text) == entries[i].ruling
    ensures RulingOn(entries, text) == RuledOther <==>
              forall i, loosely | 0 <= i < |entries| :: !RulesOn(entries[i], text, loosely)
  {
    hide Strip, Bare, Echo, Last;
    LastIs(entries, text, false);
    LastIs(entries, text, true);
  }

  ghost predicate Indexes(index: map<string, Ruling>, entries: seq<Entry>, key: string -> string) {
    forall k :: if k in index then index[k] == Last(entries, key, k) && index[k] != RuledOther
                else Last(entries, key, k) == RuledOther
  }

  /** The two look-up dictionaries of the parser, filled entry by entry. */
  method IndexEntries(entries: seq<Entry>, key: string -> string) returns (index: map<string, Ruling>)
    ensures Indexes(index, entries, key)
  {
    index := map[];
    for i := 0 to |entries|
      invariant Indexes(index, entries[..i], key)
    {
      assert entries[..i + 1][..i] == entries[..i];
      var text := Strip(entries[i].claim);
      if text != "" && entries[i].ruling != RuledOther {
        index := index[key(text) := entries[i].ruling];
      }
    }
    assert entries[..|entries|] == entries;
  }

  method LookUp(byText: map<string, Ruling>, byNorm: map<string, Ruling>, claim: Claim, ghost entries: seq<Entry>)
    returns (got: Ruling)
    requires Indexes(byText, entries, Verbatim) && Indexes(byNorm, entries, Bare)
    ensures got == RulingOn(entries, Strip(claim.text))
  {
    var text := Strip(claim.text);
    got := if text in byText then byText[text]
           else if Bare(text) in byNorm then byNorm[Bare(text)] else RuledOther;
  }

  ghost predicate RulingsOf(entries: seq<Entry>, claims: seq<Claim>, rulings: seq<Ruling>) {
    |rulings| == |claims| && forall j :: 0 <= j < |claims| ==> rulings[j] == RulingOn(entries, Strip(claims[j].text))
  }

  lemma RulingsExtend(entries: seq<Entry>, claims: seq<Claim>, i: nat, rulings: seq<Ruling>, got: Ruling)
    requires i < |claims| && RulingsOf(entries, claims[..i], rulings)
    requires got == RulingOn(entries, Strip(claims[i].text))
    ensures RulingsOf(entries, claims[..i + 1], rulings + [got])
  {
    assert claims[..i + 1] == claims[..i] + [claims[i]];
  }

  /** The judge's answer for the judged claims: index the entries, then tally the claims.
      Silence never clears a claim, and only total silence makes the judge unavailable. */
  method ParseVerdict(entries: seq<Entry>, claims: seq<Claim>) returns (v: Verdict)
    requires claims != []
    ensures v == Supported <==> forall c :: c in claims ==> RulingOn(entries, Strip(c.text)) == RuledSupported
    ensures v == Unavailable <==> forall c :: c in claims ==> RulingOn(entries, Strip(c.text)) == RuledOther
  {
    var byText := IndexEntries(entries, Verbatim);
    var byNorm := IndexEntries(entries, Bare);
    var fabricated, missing := 0, 0;
    ghost var rulings: seq<Ruling> := [];
    for i := 0 to |claims|
      invariant RulingsOf(entries, claims[..i], rulings)
      invariant missing == multiset(rulings)[RuledOther] && fabricated == multiset(rulings)[RuledFabricated]
    {
      var got := LookUp(byText, byNorm, claims[i], entries);
      RulingsExtend(entries, claims, i, rulings, got);
      rulings := rulings + [got];
      if got == RuledOther {
        missing := missing + 1;
      } else if got == RuledFabricated {
        fabricated := fabricated + 1;
      }
    }
    assert claims[..|claims|] == claims;
    TallyDecides(entries, claims, rulings);
    v := VerdictFor(fabricated, missing, |claims|);
  }

  function VerdictFor(fabricated: nat, missing: nat, total: nat): Verdict {
    if missing == total then Unavailable
    else if fabricated > 0 || missing > 0 then Fabricated
    else Supported
  }

  /** The two tallies decide whether every claim was supported and whether none was matched. */
  lemma TallyDecides(entries: seq<Entry>, claims: seq<Claim>, rulings: seq<Ruling>)
    requires claims != [] && RulingsOf(entries, claims, rulings)
    ensures var v := VerdictFor(multiset(rulings)[RuledFabricated], multiset(rulings)[RuledOther], |claims|);
            && (v == Supported <==> forall c :: c in claims ==> RulingOn(entries, Strip(c.text)) == RuledSupported)
            && (v == Unavailable <==> forall c :: c in claims ==> RulingOn(entries, Strip(c.text)) == RuledOther)
  {
    var m := multiset(rulings);
    assert claims[0] in claims;
    FullTally(rulings, RuledOther);
    assert forall r: Ruling :: r in m <==> r in rulings;
    if m[RuledOther] == 0 && m[RuledFabricated] == 0 {
      forall c | c in claims
        ensures RulingOn(entries, Strip(c.text)) == RuledSupported
      {
        var j :| 0 <= j < |claims| && claims[j] == c;
        assert rulings[j] in m;
      }
    }
    if m[RuledOther] > 0 || m[RuledFabricated] > 0 {
      var r: Ruling :| r in m && r != RuledSupported;
      var j :| 0 <= j < |rulings| && rulings[j] == r;
      assert claims[j] in claims;
    }
    if forall c :: c in claims ==> RulingOn(entries, Strip(c.text)) == RuledOther {
      assert forall j :: 0 <= j < |rulings| ==> claims[j] in claims && rulings[j] == RuledOther;
    }
  }

  lemma {:induction false} FullTally<T>(s: seq<T>, x: T)
    ensures multiset(s)[x] <= |s|
    ensures multiset(s)[x] == |s| <==> forall j :: 0 <= j < |s| ==> s[j] == x
    ensures forall y :: y != x && multiset(s)[x] == |s| ==> multiset(s)[y] == 0
  {
    if s != [] {
      var t := s[..|s| - 1];
      FullTally(t, x);
      assert s == t + [s[|s| - 1]];
      assert multiset(s) == multiset(t) + multiset{s[|s| - 1]};
      if multiset(s)[x] == |s| {
        assert multiset(t)[x] == |t|;
      }
    }
  }

  // ---- adjudication of a suppression ----------------------------------------------------

  /** The report's value: the guard suppresses exactly when some claim is un-grounded. */
  datatype Report = Report(text: string, ungrounded: seq<Claim>, disposition: Disposition)

  function Guard(reply: string, ungrounded: seq<Claim>, fallback: string): Report {
    if ungrounded == [] then Report(reply, [], Passed) else Report(fallback, ungrounded, Suppressed)
  }

  /** Whether the judge is asked at all about this report. */
  predicate AsksJudge(r: Report, budgetFallback: bool, eligible: bool) {
    r.disposition == Suppressed && Judgeable(r.ungrounded) != [] && !budgetFallback && eligible
  }

  function AfterJudge(r: Report, original: string, asked: bool, verdict: Verdict): Report {
    if !asked || verdict != Supported then r
    else
      var rest := Without(r.ungrounded, Texts(Judgeable(r.ungrounded)));
      if rest == [] then Report(original, [], Passed) else r.(ungrounded := rest)
  }

  function Texts(claims: seq<Claim>): set<string> {
    set c | c in claims :: c.text
  }

  predicate PolicyOnly(claims: seq<Claim>) {
    forall c :: c in claims ==> c.Policy()
  }

  /** A surviving suppression pages when it is policy-only or the judge confirmed a fabrication. */
  predicate Pages(r: Report, adjudication: Adjudication) {
    r.disposition == Suppressed && (PolicyOnly(r.ungrounded) || adjudication == Ran(Fabricated))
  }

  /** The alignment report the chat path mutates while it adjudicates. */
  class AlignmentReport {
    var text: string
    var ungrounded: seq<Claim>
    var disposition: Disposition

    function Value(): Report reads this { Report(text, ungrounded, disposition) }

    constructor (r: Report)
      ensures Value() == r
    {
      text, ungrounded, disposition := r.text, r.ungrounded, r.disposition;
    }

    /** The judge backstop. `answer` is what the judge would rule if it were asked. */
    method Adjudicate(original: string, budgetFallback: bool, eligible: bool, answer: Verdict)
      returns (result: Adjudication, overturned: bool)
      modifies this
      ensures var asked := old(AsksJudge(Value(), budgetFallback, eligible));
              && Value() == AfterJudge(old(Value()), original, asked, answer)
              && result == (if asked then Ran(answer) else NotRun)
              && overturned == (asked && answer == Supported)
    {
      result, overturned := NotRun, false;
      if disposition != Suppressed {
        return;
      }
      var judgeable := Judgeable(ungrounded);
      if judgeable == [] {
        return;
      }
      if budgetFallback || !eligible {
        return;
      }
      result := Ran(answer);
      if answer == Supported {
        var cleared := Texts(judgeable);
        ungrounded := Without(ungrounded, cleared);
        if ungrounded == [] {
          disposition := Passed;
          text := original;
        }
        overturned := true;
      }
    }
  }

  predicate SharesText(claims: seq<Claim>, c: Claim) {
    exists d :: d in claims && !d.Policy() && d.text == c.text
  }

  lemma ClearedText(claims: seq<Claim>, c: Claim)
    ensures c.text in Texts(Judgeable(claims)) <==> SharesText(claims, c)
  {
    if c.text in Texts(Judgeable(claims)) {
      var d :| d in Judgeable(claims) && d.text == c.text;
      JudgeableMember(claims, d);
    }
    if SharesText(claims, c) {
      var d :| d in claims && !d.Policy() && d.text == c.text;
      JudgeableMember(claims, d);
      assert d in Judgeable(claims);
    }
  }

  /** The judge is asked exactly about a generator's own reply with a claim it can rule on. */
  lemma AskedExactly(reply: string, ungrounded: seq<Claim>, fallback: string, budgetFallback: bool, eligible: bool)
    ensures AsksJudge(Guard(reply, ungrounded, fallback), budgetFallback, eligible)
            <==> !budgetFallback && eligible && exists c :: c in ungrounded && !c.Policy()
  {
    if Judgeable(ungrounded) != [] {
      JudgeableMember(ungrounded, Judgeable(ungrounded)[0]);
    }
    if c :| c in ungrounded && !c.Policy() {
      JudgeableMember(ungrounded, c);
    }
  }

  /** What the user finally sees and who is paged, for every guard result and every judge answer.
      The original reply goes out exactly when the guard passed it, or the judge was asked, supported the
      claims, and every flagged claim carries the text of a judgeable one. */
  lemma AdjudicationOutcome(reply: string, ungrounded: seq<Claim>, fallback: string,
                            budgetFallback: bool, eligible: bool, answer: Verdict)
    ensures
      var r := Guard(reply, ungrounded, fallback);
      var asked := AsksJudge(r, budgetFallback, eligible);
      var after := AfterJudge(r, reply, asked, answer);
      var adj := if asked then Ran(answer) else NotRun;
      && (after.disposition == Passed <==>
            ungrounded == [] || (asked && answer == Supported && forall c :: c in ungrounded ==> SharesText(ungrounded, c)))
      && (after.disposition == Passed ==> after.text == reply && !Pages(after, adj))
      && (after.disposition == Suppressed ==> after.text == fallback && after.ungrounded != [])
      && (forall c :: c in after.ungrounded <==>
            c in ungrounded && !(asked && answer == Supported && SharesText(ungrounded, c)))
      && (Pages(after, adj) <==>
            after.disposition == Suppressed
            && ((forall c :: c in after.ungrounded ==> c.Policy()) || (asked && answer == Fabricated)))
  {
    var r := Guard(reply, ungrounded, fallback);
    var asked := AsksJudge(r, budgetFallback, eligible);
    var after := AfterJudge(r, reply, asked, answer);
    if asked && answer == Supported {
      var rest := Without(ungrounded, Texts(Judgeable(ungrounded)));
      forall c
        ensures c in rest <==> c in ungrounded && !SharesText(ungrounded, c)
      {
        WithoutMember(ungrounded, Texts(Judgeable(ungrounded)), c);
        ClearedText(ungrounded, c);
      }
      if rest != [] {
        assert rest[0] in rest;
      }
      assert forall c :: c in after.ungrounded <==> c in rest;
    } else if ungrounded != [] {
      assert after == r;
    }
  }

  /** With no text shared between a policy claim and a judgeable one, restoration means every flagged claim was
      judgeable and the judge supported them, and a supported verdict leaves exactly the policy claims, which page. */
  lemma RestoredExactlyWhenAllJudgedSupported(reply: string, ungrounded: seq<Claim>, fallback: string,
                                              budgetFallback: bool, eligible: bool, answer: Verdict)
    requires forall c :: c in ungrounded && c.Policy() ==> !SharesText(ungrounded, c)
    ensures
      var r := Guard(reply, ungrounded, fallback);
      var asked := AsksJudge(r, budgetFallback, eligible);
      var after := AfterJudge(r, reply, asked, answer);
      var adj := if asked then Ran(answer) else NotRun;
      && (after.disposition == Passed <==>
            ungrounded == [] || (asked && answer == Supported && forall c :: c in ungrounded ==> !c.Policy()))
      && (Pages(after, adj) <==>
            after.disposition == Suppressed
            && (PolicyOnly(ungrounded) || (asked && answer in {Supported, Fabricated})))
  {
    AdjudicationOutcome(reply, ungrounded, fallback, budgetFallback, eligible, answer);
    forall c | c in ungrounded
      ensures SharesText(ungrounded, c) <==> !c.Policy()
    {
    }
    var r := Guard(reply, ungrounded, fallback);
    var asked := AsksJudge(r, budgetFallback, eligible);
    var after := AfterJudge(r, reply, asked, answer);
    if asked && answer == Supported {
      assert forall c :: c in after.ungrounded ==> c.Policy();
    } else if ungrounded != [] {
      assert after == r;
    }
  }

  /** Clearing by text also drops an advice claim that repeats a supported biographical sentence: the reply
      with the advice in it goes out and nobody is paged. */
  lemma SharedTextWitness(reply: string, fallback: string)
    ensures
      var claims := [Claim("s", Biographical), Claim("s", Advice)];
      var r := Guard(reply, claims, fallback);
      && AsksJudge(r, false, true)
      && AfterJudge(r, reply, true, Supported) == Report(reply, [], Passed)
  {
    var bio, adv := Claim("s", Biographical), Claim("s", Advice);
    var claims := [bio, adv];
    assert claims[1..] == [adv] && [adv][1..] == [];
    assert Judgeable([adv]) == [];
    assert Judgeable(claims) == [bio];
    assert bio in [bio];
    assert "s" in Texts([bio]);
    assert Without([adv], Texts([bio])) == [];
  }
}
