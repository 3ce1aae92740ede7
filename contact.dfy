/** `check_contact_info`: email, phone, LinkedIn, GitHub or website, and
    location, 12 points in all (120 tenths). */
module Contact {
  import opened Text
  import opened Scoring
  import Catalog

  /** The five searches for a profile link, in the order of the `or` chain:
      the URL in the text, the URL with spaces around its punctuation, the
      URL in the whitespace-collapsed text, the URL with all whitespace
      removed, and the bare word. */
  datatype ProfileSearches = ProfileSearches(url: bool, spacedUrl: bool, collapsedUrl: bool, noSpaceUrl: bool, word: bool)

  /** What the regex searches of the checker report.  `email` is the text of
      the first email match (in the text, else in the collapsed text). */
  datatype ContactSignals = ContactSignals(
    email: Option<string>,
    phone: bool,
    linkedin: ProfileSearches,
    github: ProfileSearches,
    website: bool,
    location: bool)

  /** Any of the five searches matched. */
  predicate Matched(p: ProfileSearches) {
    p.url || p.spacedUrl || p.collapsedUrl || p.noSpaceUrl || p.word
  }

  /** Only the bare word is there: no URL in the collapsed text. */
  predicate KeywordOnly(p: ProfileSearches) {
    !p.collapsedUrl && p.word
  }

  const WebmailDomains: seq<string> := ["gmail.com", "outlook.com", "yahoo.com", "hotmail.com", "protonmail.com"]

  /** The reported address: the match with all whitespace removed, lower-cased. */
  function EmailAddress(m: string): (a: string)
    ensures |a| <= |m|
    ensures forall i :: 0 <= i < |a| ==> !IsSpace(a[i]) && !('A' <= a[i] <= 'Z')
  {
    Lower(RemoveSpaces(m))
  }

  /** Exactly the whitespace characters of the match are dropped. */
  lemma EmailAddressLength(m: string)
    ensures |EmailAddress(m)| == |m| - Count(m, IsSpace)
  {
    RemoveSpacesLength(m);
  }

  /** Normalising works character by character: the address of `x + y` is
      the address of `x` followed by that of `y`. */
  lemma EmailAddressAppend(x: string, y: string)
    ensures EmailAddress(x + y) == EmailAddress(x) + EmailAddress(y)
  {
    RemoveSpacesAppend(x, y);
    LowerAppend(RemoveSpaces(x), RemoveSpaces(y));
  }

  /** A whitespace character is dropped and any other one lower-cased: with
      `EmailAddressAppend` this determines `EmailAddress`. */
  lemma EmailAddressChar(c: char)
    ensures EmailAddress([c]) == if IsSpace(c) then [] else [LowerChar(c)]
  {
    RemoveSpacesChar(c);
  }

  /** The part before the first '@', or "" when there is none. */
  function LocalPart(a: string): (l: string)
    ensures '@' !in l
    ensures '@' !in a ==> l == ""
  {
    if '@' in a then SplitChar(a, '@')[0] else ""
  }

  /** The part between the first and the second '@', or "". */
  function Domain(a: string): (d: string)
    ensures '@' !in d
    ensures '@' !in a ==> d == ""
  {
    if '@' in a then SplitChar(a, '@')[1] else ""
  }

  /** The local part holds one of the given words. */
  predicate Unprofessional(a: string, words: seq<string>) {
    ContainsAny(LocalPart(a), words)
  }

  /** The email finding; the unprofessional-word test comes before the domain test. */
  function EmailFinding(email: Option<string>, words: seq<string>): (f: Finding)
    ensures email.None? ==> f.kind == Fail
    ensures email.Some? ==> f.items == [EmailAddress(email.value)]
    ensures email.Some? ==> (f.kind == Warning <==> Unprofessional(EmailAddress(email.value), words))
    ensures email.Some? && !Unprofessional(EmailAddress(email.value), words) ==>
      f.kind == Pass && (f.tag == "email-professional" <==> Domain(EmailAddress(email.value)) in WebmailDomains)
  {
    match email
    case None => Note(Fail, "email-missing")
    case Some(m) =>
      var a := EmailAddress(m);
      if Unprofessional(a, words) then Finding(Warning, "email-unprofessional", [], [a])
      else if Domain(a) in WebmailDomains then Finding(Pass, "email-professional", [], [a])
      else Finding(Pass, "email-found", [], [a])
  }

  /** Normalising a reported address again changes nothing. */
  lemma EmailAddressIdempotent(m: string)
    ensures EmailAddress(EmailAddress(m)) == EmailAddress(m)
  {
    var a := EmailAddress(m);
    RemoveSpacesNoSpace(a);
    LowerIdempotent(a);
    assert Lower(a) == a by {
      assert forall i :: 0 <= i < |a| ==> LowerChar(a[i]) == a[i];
    }
  }

  /** An address `l@d` with no other '@' splits into local part `l` and domain `d`. */
  lemma LocalPartDomain(l: string, d: string)
    requires '@' !in l && '@' !in d
    ensures LocalPart(l + "@" + d) == l
    ensures Domain(l + "@" + d) == d
  {
    var a := l + "@" + d;
    assert a[|l|] == '@';
    var i := IndexOf(a, '@');
    assert a[..i] == l;
    assert a[i + 1..] == d;
  }

  /** An unprofessional word in the local part makes the email finding a
      warning even at a webmail domain. */
  lemma UnprofessionalBeforeDomain(m: string, l: string, d: string, words: seq<string>, k: nat)
    requires EmailAddress(m) == l + "@" + d && '@' !in l && '@' !in d
    requires d in WebmailDomains
    requires k < |words| && Contains(l, words[k])
    ensures EmailFinding(Some(m), words).kind == Warning
    ensures EmailFinding(Some(m), words).tag == "email-unprofessional"
  {
    LocalPartDomain(l, d);
    ContainsAnyFound(l, words);
  }

  /** The email sub-check, given the match (if any) and the word list. */
  method CheckEmail(email: Option<string>, words: seq<string>) returns (f: Finding, points: int)
    ensures f == EmailFinding(email, words)
    ensures points == (if email.Some? then 30 else 0)
  {
    if email.Some? {
      points := 30;
      var addr := EmailAddress(email.value);
      if Unprofessional(addr, words) {
        f := Finding(Warning, "email-unprofessional", [], [addr]);
      } else if Domain(addr) in WebmailDomains {
        f := Finding(Pass, "email-professional", [], [addr]);
      } else {
        f := Finding(Pass, "email-found", [], [addr]);
      }
    } else {
      points := 0;
      f := Note(Fail, "email-missing");
    }
  }

  /** The LinkedIn sub-check. */
  method CheckLinkedIn(p: ProfileSearches) returns (f: Finding, points: int)
    ensures points == (if Matched(p) then 20 else 0)
    ensures f.kind == (if Matched(p) then Pass else Warning)
    ensures Matched(p) ==> (f.tag == "linkedin-reference" <==> KeywordOnly(p))
  {
    if Matched(p) {
      points := 20;
      if KeywordOnly(p) {
        f := Note(Pass, "linkedin-reference");
      } else {
        f := Note(Pass, "linkedin-url");
      }
    } else {
      points := 0;
      f := Note(Warning, "linkedin-missing");
    }
  }

  /** The GitHub sub-check, with a portfolio or website link as the fallback. */
  method CheckPortfolio(github: ProfileSearches, website: bool) returns (f: Finding, points: int)
    ensures points == (if Matched(github) || website then 20 else 0)
    ensures f.kind == (if Matched(github) || website then Pass else Info)
    ensures Matched(github) ==> (f.tag == "github-reference" <==> KeywordOnly(github))
    ensures Matched(github) ==> f.tag != "website"
    ensures !Matched(github) && website ==> f.tag == "website"
  {
    if Matched(github) {
      points := 20;
      if KeywordOnly(github) {
        f := Note(Pass, "github-reference");
      } else {
        f := Note(Pass, "github-url");
      }
    } else if website {
      points := 20;
      f := Note(Pass, "website");
    } else {
      points := 0;
      f := Note(Info, "portfolio-missing");
    }
  }

  /** `check_contact_info` */
  method CheckContactInfo(sig: ContactSignals) returns (r: CheckResult)
    ensures r.maxScore == 120 && |r.findings| == 5
    ensures r.score == (if sig.email.Some? then 30 else 0) + (if sig.phone then 30 else 0)
      + (if Matched(sig.linkedin) then 20 else 0)
      + (if Matched(sig.github) || sig.website then 20 else 0)
      + (if sig.location then 20 else 0)
    ensures 0 <= r.score <= r.maxScore
    ensures r.findings[0] == EmailFinding(sig.email, Catalog.UnprofessionalEmailWords)
    ensures r.findings[1].kind == (if sig.phone then Pass else Fail)
    ensures r.findings[2].kind == (if Matched(sig.linkedin) then Pass else Warning)
    ensures Matched(sig.linkedin) ==> (r.findings[2].tag == "linkedin-reference" <==> KeywordOnly(sig.linkedin))
    ensures r.findings[3].kind == (if Matched(sig.github) || sig.website then Pass else Info)
    ensures Matched(sig.github) ==> (r.findings[3].tag == "github-reference" <==> KeywordOnly(sig.github))
    ensures Matched(sig.github) ==> r.findings[3].tag != "website"
    ensures !Matched(sig.github) && sig.website ==> r.findings[3].tag == "website"
    ensures r.findings[4].kind == (if sig.location then Pass else Warning)
  {
    var findings: seq<Finding> := [];
    var score := 0;
    var maxScore := 120;

    var emailFinding, emailPoints := CheckEmail(sig.email, Catalog.UnprofessionalEmailWords);
    score := score + emailPoints;
    findings := findings + [emailFinding];
    assert findings == [emailFinding];

    if sig.phone {
      score := score + 30;
      findings := findings + [Note(Pass, "phone")];
    } else {
      findings := findings + [Note(Fail, "phone-missing")];
    }
    assert |findings| == 2 && findings[0] == emailFinding;

    var linkedinFinding, linkedinPoints := CheckLinkedIn(sig.linkedin);
    score := score + linkedinPoints;
    findings := findings + [linkedinFinding];

    var portfolioFinding, portfolioPoints := CheckPortfolio(sig.github, sig.website);
    score := score + portfolioPoints;
    findings := findings + [portfolioFinding];
    assert |findings| == 4 && findings[0] == emailFinding;

    if sig.location {
      score := score + 20;
      findings := findings + [Note(Pass, "location")];
    } else {
      findings := findings + [Note(Warning, "location-missing")];
    }

    r := CheckResult(Clamp(score, maxScore), maxScore, findings);
  }
}
