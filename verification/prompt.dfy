/** The recommendation prompt (`createPrompt` of the device controller): a base sentence
    about the device, then a renewal reminder when the plan expires within 90 days, an
    upgrade suggestion when the device is at least 3 years old, and the claim history
    with closing instructions when there are claims.

    The clock enters as two integers computed by the caller: the device age in tenths of
    a year (the value of `toFixed(1)`) and the whole days until the plan ends (the value
    of `Math.round`). */
module Prompt {
  import opened Calendar
  import opened Format
  import opened DeviceModel

  /** What the prompt says about the device, with the clock already applied. */
  datatype PromptFacts = PromptFacts(
    name: string,
    kind: string,
    manufacturer: string,
    purchaseDate: Date,
    ageTenths: int,
    daysUntilExpiry: int)

  /** Plans ending within this many days get a renewal reminder. */
  const RenewalWindowDays := 90
  /** Devices at least this old, in tenths of a year, get an upgrade suggestion. */
  const UpgradeAgeTenths := 30

  const RenewalLead := " The protection plan expires in "
  const RenewalAdvice := " days. Suggest renewing the plan to avoid coverage gaps."
  /** One sentence; its first word is a literal of its own so that the verifier can read
      the sentence's first characters. */
  const UpgradeClause := " Consider" + " upgrading to the latest model, as the device is over 3 years old."
  const ClaimsHeader := " The user has made the following claims: "
  const ClaimsClosing :=
    " Provide device upgrade suggestions, protection plan renewal reminders, and tips for preventing future damage."
    + "\nPlease provide a concise summary in 5 lines, separated by \\n, without any additional explanations or questions."

  function BaseSentence(f: PromptFacts): string
    requires ValidDate(f.purchaseDate)
  {
    "The user owns a " + f.name + " (" + f.kind + ") manufactured by " + f.manufacturer
    + ". The device was purchased on " + DateString(f.purchaseDate)
    + " and is currently " + TenthsText(f.ageTenths) + " years old."
  }

  function RenewalPart(f: PromptFacts): string {
    if f.daysUntilExpiry <= RenewalWindowDays then
      RenewalLead + (IntText(f.daysUntilExpiry) + RenewalAdvice)
    else ""
  }

  function UpgradePart(f: PromptFacts): string {
    if f.ageTenths >= UpgradeAgeTenths then UpgradeClause else ""
  }

  predicate ValidClaimDates(claims: seq<Claim>) {
    forall i :: 0 <= i < |claims| ==> ValidDate(claims[i].date)
  }

  /** One line of the claim history, with the claim date written as `toDateString`
      writes it. */
  function ClaimLine(c: Claim): string
    requires ValidDate(c.date)
  {
    ClaimLineWith(c, DateString(c.date))
  }

  /** The line of claim `c` when its date is written as `dateText`. */
  function ClaimLineWith(c: Claim, dateText: string): string {
    "\n- " + c.kind + " on " + dateText + ", resolved as " + c.resolution + "."
  }

  /** The claim lines, one per claim, in list order. */
  function ClaimLineList(claims: seq<Claim>): (lines: seq<string>)
    requires ValidClaimDates(claims)
    ensures |lines| == |claims|
    ensures forall i :: 0 <= i < |claims| ==> lines[i] == ClaimLine(claims[i])
  {
    seq(|claims|, i requires 0 <= i < |claims| && ValidDate(claims[i].date) => ClaimLine(claims[i]))
  }

  /** The lines written one after the other. */
  function Join(lines: seq<string>): string {
    if lines == [] then "" else Join(lines[..|lines| - 1]) + lines[|lines| - 1]
  }

  function ClaimLines(claims: seq<Claim>): string
    requires ValidClaimDates(claims)
  {
    Join(ClaimLineList(claims))
  }

  function ClaimsPart(claims: seq<Claim>): string
    requires ValidClaimDates(claims)
  {
    if |claims| > 0 then ClaimsHeader + (ClaimLines(claims) + ClaimsClosing) else ""
  }

  /** What follows the base sentence: the optional renewal, upgrade and claim parts. */
  function Clauses(f: PromptFacts, claims: seq<Claim>): string
    requires ValidClaimDates(claims)
  {
    RenewalPart(f) + (UpgradePart(f) + ClaimsPart(claims))
  }

  /** The prompt `createPrompt` returns. */
  function PromptText(f: PromptFacts, claims: seq<Claim>): string
    requires ValidDate(f.purchaseDate) && ValidClaimDates(claims)
  {
    BaseSentence(f) + Clauses(f, claims)
  }

  /** createPrompt: the base sentence, then the clauses appended one by one. */
  method BuildPrompt(f: PromptFacts, claims: seq<Claim>) returns (prompt: string)
    requires ValidDate(f.purchaseDate) && ValidClaimDates(claims)
    ensures prompt == PromptText(f, claims)
  {
    prompt := BaseSentence(f);
    prompt := AppendClauses(prompt, f, claims);
  }

  /** The `+=` steps of createPrompt after its base sentence. */
  method AppendClauses(head: string, f: PromptFacts, claims: seq<Claim>) returns (prompt: string)
    requires ValidClaimDates(claims)
    ensures prompt == head + Clauses(f, claims)
  {
    prompt := head;
    if f.daysUntilExpiry <= RenewalWindowDays {
      prompt := prompt + RenewalLead + IntText(f.daysUntilExpiry) + RenewalAdvice;
      Associate(head, RenewalLead, IntText(f.daysUntilExpiry), RenewalAdvice);
    }
    assert prompt == head + RenewalPart(f);
    ghost var renewed := prompt;
    if f.ageTenths >= UpgradeAgeTenths {
      prompt := prompt + UpgradeClause;
    }
    assert prompt == renewed + UpgradePart(f);
    ghost var upgraded := prompt;
    if |claims| > 0 {
      prompt := AppendClaimLines(prompt + ClaimsHeader, claims);
      prompt := prompt + ClaimsClosing;
      Associate(upgraded, ClaimsHeader, ClaimLines(claims), ClaimsClosing);
    }
    assert prompt == upgraded + ClaimsPart(claims);
    Associate(head, RenewalPart(f), UpgradePart(f), ClaimsPart(claims));
  }

  /** The `forEach` over the claim history: one line per claim, appended in list order. */
  method AppendClaimLines(head: string, claims: seq<Claim>) returns (prompt: string)
    requires ValidClaimDates(claims)
    ensures prompt == head + ClaimLines(claims)
  {
    ghost var lines := ClaimLineList(claims);
    prompt := head;
    assert lines[..0] == [];
    var i := 0;
    while i < |claims|
      invariant 0 <= i <= |claims|
      invariant prompt == head + Join(lines[..i])
    {
      assert lines[..i + 1][..i] == lines[..i];
      assert Join(lines[..i + 1]) == Join(lines[..i]) + lines[i];
      var line := ClaimLine(claims[i]);
      assert line == lines[i];
      AssociateThree(head, Join(lines[..i]), line);
      prompt := prompt + line;
      i := i + 1;
    }
    assert lines[..i] == lines;
  }

  lemma AssociateThree(a: string, b: string, c: string)
    ensures a + b + c == a + (b + c)
  {
  }

  lemma Associate(a: string, b: string, c: string, d: string)
    ensures a + b + c + d == a + (b + (c + d))
  {
  }

  /** Joining concatenated lists joins each list. */
  lemma {:induction false} JoinAppend(a: seq<string>, b: seq<string>)
    ensures Join(a + b) == Join(a) + Join(b)
  {
    if b == [] {
      assert a + b == a;
    } else {
      var b' := b[..|b| - 1];
      assert (a + b)[..|a + b| - 1] == a + b';
      JoinAppend(a, b');
    }
  }

  /** Claim `i` contributes its one line between the lines of the claims before it and
      those of the claims after it. */
  lemma ClaimLineInPlace(claims: seq<Claim>, i: nat)
    requires ValidClaimDates(claims) && i < |claims|
    ensures ClaimLines(claims) ==
      Join(ClaimLineList(claims)[..i]) + ClaimLine(claims[i]) + Join(ClaimLineList(claims)[i + 1..])
  {
    var lines := ClaimLineList(claims);
    assert lines == lines[..i] + [lines[i]] + lines[i + 1..];
    JoinAppend(lines[..i], [lines[i]]);
    assert Join([lines[i]]) == lines[i] by {
      assert [lines[i]][..0] == [];
    }
    JoinAppend(lines[..i] + [lines[i]], lines[i + 1..]);
  }

  /** A text that starts with the upgrade clause or the claim header does not start
      with the renewal lead, and one that starts with the claim header does not start
      with the upgrade clause. */
  lemma LeadsDiffer(x: string)
    ensures !(RenewalLead <= UpgradeClause + x)
    ensures !(RenewalLead <= ClaimsHeader + x)
    ensures !(UpgradeClause <= ClaimsHeader + x)
  {
    assert (UpgradeClause + x)[1] == 'C';
    assert (ClaimsHeader + x)[1] == 'T' && (ClaimsHeader + x)[5] == 'u';
    assert RenewalLead[1] == 'T' && RenewalLead[5] == 'p';
  }

  lemma PrefixOfConcat(a: string, x: string)
    ensures a <= a + x && (a + x)[|a|..] == x
  {
  }

  /** Right after the base sentence the prompt reminds of renewal exactly when the plan
      ends within 90 days. */
  lemma RenewalReminderIff(f: PromptFacts, claims: seq<Claim>)
    requires ValidClaimDates(claims)
    ensures RenewalLead <= Clauses(f, claims) <==> f.daysUntilExpiry <= RenewalWindowDays
  {
    var tail := ClaimsPart(claims);
    if f.daysUntilExpiry <= RenewalWindowDays {
      PrefixOfConcat(RenewalLead, IntText(f.daysUntilExpiry) + RenewalAdvice);
      PrefixOfConcat(RenewalPart(f), UpgradePart(f) + tail);
    } else if f.ageTenths >= UpgradeAgeTenths {
      assert Clauses(f, claims) == UpgradeClause + tail;
      LeadsDiffer(tail);
    } else if |claims| > 0 {
      assert Clauses(f, claims) == ClaimsHeader + (ClaimLines(claims) + ClaimsClosing);
      LeadsDiffer(ClaimLines(claims) + ClaimsClosing);
    } else {
      assert Clauses(f, claims) == "";
    }
  }

  /** After the renewal part the prompt suggests an upgrade exactly when the device is at
      least 3 years old. */
  lemma UpgradeSuggestionIff(f: PromptFacts, claims: seq<Claim>)
    requires ValidClaimDates(claims)
    ensures RenewalPart(f) <= Clauses(f, claims)
    ensures UpgradeClause <= Clauses(f, claims)[|RenewalPart(f)|..]
            <==> f.ageTenths >= UpgradeAgeTenths
  {
    var tail := ClaimsPart(claims);
    var rest := UpgradePart(f) + tail;
    assert Clauses(f, claims) == RenewalPart(f) + rest;
    PrefixOfConcat(RenewalPart(f), rest);
    if f.ageTenths >= UpgradeAgeTenths {
      PrefixOfConcat(UpgradeClause, tail);
    } else if |claims| > 0 {
      assert rest == ClaimsHeader + (ClaimLines(claims) + ClaimsClosing);
      LeadsDiffer(ClaimLines(claims) + ClaimsClosing);
    } else {
      assert rest == "";
    }
  }

  /** The prompt ends with a claim section exactly when there are claims, and that
      section is the header, the claim lines and the closing instructions. */
  lemma ClaimSectionIff(f: PromptFacts, claims: seq<Claim>)
    requires ValidClaimDates(claims)
    ensures var head := RenewalPart(f) + UpgradePart(f);
      && head <= Clauses(f, claims)
      && (|claims| > 0 ==>
            Clauses(f, claims)[|head|..] == ClaimsHeader + ClaimLines(claims) + ClaimsClosing)
      && (|claims| == 0 <==> |Clauses(f, claims)| == |head|)
  {
    var head := RenewalPart(f) + UpgradePart(f);
    var tail := ClaimsPart(claims);
    AssociateThree(RenewalPart(f), UpgradePart(f), tail);
    PrefixOfConcat(head, tail);
    if |claims| > 0 {
      AssociateThree(ClaimsHeader, ClaimLines(claims), ClaimsClosing);
    }
  }

  /** A claim line determines the date text and the resolution of a claim of known kind,
      whenever date texts have a fixed width. */
  lemma ClaimLineWithInjective(a: Claim, ta: string, b: Claim, tb: string)
    requires a.kind == b.kind && |ta| == |tb|
    requires ClaimLineWith(a, ta) == ClaimLineWith(b, tb)
    ensures ta == tb && a.resolution == b.resolution
  {
    var lead := "\n- " + a.kind + " on ";
    var n := |lead|;
    var la := ClaimLineWith(a, ta);
    assert la == lead + ta + ", resolved as " + a.resolution + ".";
    assert ClaimLineWith(b, tb) == lead + tb + ", resolved as " + b.resolution + ".";
    assert ta == la[n..n + |ta|];
    assert tb == la[n..n + |ta|];
    var m := n + |ta| + |", resolved as "|;
    assert a.resolution == la[m..|la| - 1];
    assert b.resolution == la[m..|la| - 1];
  }

  /** Two claims of the same kind whose lines read the same are the same claim: the line
      keeps the claim date. */
  lemma ClaimLineKeepsClaim(a: Claim, b: Claim)
    requires ValidDate(a.date) && 0 <= a.date.year <= 9999
    requires ValidDate(b.date) && 0 <= b.date.year <= 9999
    requires a.kind == b.kind && ClaimLine(a) == ClaimLine(b)
    ensures a == b
  {
    ClaimLineWithInjective(a, DateString(a.date), b, DateString(b.date));
    DateStringInjective(a.date, b.date);
  }

  /** What `new Date(undefined).toDateString()` returns. */
  const InvalidDate := "Invalid Date"

  /** The claim line as the controller writes it: it reads `$date` from the claim date,
      which a Date does not have, so every claim is dated "Invalid Date". */
  function ClaimLineAsWritten(c: Claim): string {
    ClaimLineWith(c, InvalidDate)
  }

  /** As written, two different claims of the same kind and resolution give the same
      line: the claim date never reaches the prompt. */
  lemma ClaimLineAsWrittenDropsDate()
    ensures var a := Claim(Date(2023, 1, 15), "Screen damage", "Repaired");
      var b := Claim(Date(2024, 6, 1), "Screen damage", "Repaired");
      a != b && ClaimLineAsWritten(a) == ClaimLineAsWritten(b)
      && ClaimLine(a) != ClaimLine(b)
  {
    var a := Claim(Date(2023, 1, 15), "Screen damage", "Repaired");
    var b := Claim(Date(2024, 6, 1), "Screen damage", "Repaired");
    if ClaimLine(a) == ClaimLine(b) {
      ClaimLineKeepsClaim(a, b);
    }
  }
}
