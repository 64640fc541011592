/** The profile page (src/pages/Profile.tsx): the account form's field rules and
    the values it is reset to, the seller-only load of the user's gigs, and the
    integer seller statistics. */
module Profile {
  import opened Wrappers
  import opened Records

  /** The account form's values; phone and description are plain inputs too. */
  datatype ProfileFormData = ProfileFormData(
    username: string,
    email: string,
    country: string,
    phone: string,
    desc: string)

  datatype ProfileField = Username | Email | Country | Phone | Desc

  const AllProfileFields: set<ProfileField> := {Username, Email, Country, Phone, Desc}

  // ---- the email pattern /^[A-Z0-9._%+-]+@[A-Z0-9.-]+\.[A-Z]{2,}$/i --------

  /** `[A-Z]` under the `i` flag: in non-Unicode mode only the ASCII letters of
      either case fold onto it. */
  predicate IsLetter(c: char)
  {
    'A' <= c <= 'Z' || 'a' <= c <= 'z'
  }

  predicate IsDigit(c: char)
  {
    '0' <= c <= '9'
  }

  /** The class before the `@`. */
  predicate IsLocalChar(c: char)
  {
    IsLetter(c) || IsDigit(c) || c == '.' || c == '_' || c == '%' || c == '+' || c == '-'
  }

  /** The class between the `@` and the final dot. */
  predicate IsDomainChar(c: char)
  {
    IsLetter(c) || IsDigit(c) || c == '.' || c == '-'
  }

  /** The pattern read as a shape: the `@` at `at` and the dot at `dot` split the
      text into a non-empty local part, a non-empty domain and a top-level domain
      of at least two letters, each made of its own class. */
  predicate EmailShape(s: string, at: int, dot: int)
  {
    && 1 <= at && at + 1 < dot && dot + 2 < |s|
    && s[at] == '@' && s[dot] == '.'
    && (forall i :: 0 <= i < at ==> IsLocalChar(s[i]))
    && (forall i :: at < i < dot ==> IsDomainChar(s[i]))
    && (forall i :: dot < i < |s| ==> IsLetter(s[i]))
  }

  /** The text matches the pattern: some split gives it the shape. */
  ghost predicate MatchesEmailPattern(s: string)
  {
    exists at, dot :: EmailShape(s, at, dot)
  }

  /** The first position of `c` in `s`, if any. */
  function IndexOf(s: string, c: char): (r: Option<nat>)
    ensures r.Some? ==> r.value < |s| && s[r.value] == c && forall j :: 0 <= j < r.value ==> s[j] != c
    ensures r.None? ==> forall j :: 0 <= j < |s| ==> s[j] != c
  {
    IndexFrom(s, c, 0)
  }

  /** The first position of `c` at `i` or after. */
  function IndexFrom(s: string, c: char, i: nat): (r: Option<nat>)
    requires i <= |s|
    ensures r.Some? ==> i <= r.value < |s| && s[r.value] == c && forall j :: i <= j < r.value ==> s[j] != c
    ensures r.None? ==> forall j :: i <= j < |s| ==> s[j] != c
    decreases |s| - i
  {
    if i == |s| then None
    else if s[i] == c then Some(i)
    else IndexFrom(s, c, i + 1)
  }

  /** The last position of `c` in `s`, if any. */
  function LastIndexOf(s: string, c: char): (r: Option<nat>)
    ensures r.Some? ==> r.value < |s| && s[r.value] == c && forall j :: r.value < j < |s| ==> s[j] != c
    ensures r.None? ==> forall j :: 0 <= j < |s| ==> s[j] != c
  {
    LastIndexBelow(s, c, |s|)
  }

  /** The last position of `c` before `n`. */
  function LastIndexBelow(s: string, c: char, n: nat): (r: Option<nat>)
    requires n <= |s|
    ensures r.Some? ==> r.value < n && s[r.value] == c && forall j :: r.value < j < n ==> s[j] != c
    ensures r.None? ==> forall j :: 0 <= j < n ==> s[j] != c
  {
    if n == 0 then None
    else if s[n - 1] == c then Some(n - 1)
    else LastIndexBelow(s, c, n - 1)
  }

  /** The check as a computation: the top-level domain starts after the last dot,
      and the local part ends at the first `@`. */
  predicate IsValidEmail(s: string)
  {
    match LastIndexOf(s, '.')
    case None => false
    case Some(dot) =>
      match IndexOf(s[..dot], '@')
      case None => false
      case Some(at) => EmailShape(s, at, dot)
  }

  /** The computed check accepts exactly the texts the pattern matches. The
      top-level domain holds no dot and the local part no `@`, so a matching split
      is the one the computation finds. */
  lemma IsValidEmailIff(s: string)
    ensures IsValidEmail(s) <==> MatchesEmailPattern(s)
  {
    if MatchesEmailPattern(s) {
      var at, dot :| EmailShape(s, at, dot);
      assert LastIndexOf(s, '.') == Some(dot);
      assert s[..dot][at] == '@';
      assert IndexOf(s[..dot], '@') == Some(at);
    }
  }

  /** A one-letter top-level domain does not match; two letters do. */
  lemma OneLetterTopLevelDomainRejected()
    ensures !MatchesEmailPattern("a@b.c")
    ensures MatchesEmailPattern("a@b.co")
  {
    IsValidEmailIff("a@b.c");
    LastIndexOfAt("a@b.c", '.', 3);
    assert !EmailShape("a@b.c", 1, 3);
    assert EmailShape("a@b.co", 1, 3);
  }

  // ---- the browser's own check of the `type="email"` input ------------------

  /** The parts of `s` between the occurrences of `c` (`s.split(c)`), found from
      the back: the parts before the last `c`, then the part after it. */
  function SplitOn(s: string, c: char): (parts: seq<string>)
    ensures |parts| >= 1
    decreases |s|
  {
    match LastIndexOf(s, c)
    case None => [s]
    case Some(k) => SplitOn(s[..k], c) + [s[k + 1..]]
  }

  /** Joining the parts gives the text back, and no part holds the separator. */
  lemma {:induction false} SplitOnJoins(s: string, c: char)
    ensures JoinWith(SplitOn(s, c), c) == s
    ensures forall k :: 0 <= k < |SplitOn(s, c)| ==> c !in SplitOn(s, c)[k]
    decreases |s|
  {
    match LastIndexOf(s, c)
    case None =>
    case Some(k) =>
      SplitOnJoins(s[..k], c);
      var init := SplitOn(s[..k], c);
      var parts := init + [s[k + 1..]];
      assert parts[..|parts| - 1] == init;
      assert s == s[..k] + [c] + s[k + 1..];
  }

  /** `parts.join(c)`. */
  function JoinWith(parts: seq<string>, c: char): string
  {
    if |parts| == 0 then ""
    else if |parts| == 1 then parts[0]
    else JoinWith(parts[..|parts| - 1], c) + [c] + parts[|parts| - 1]
  }

  /** Splitting a join gives the parts back when no part holds the separator. */
  lemma {:induction false} SplitJoinRoundTrip(parts: seq<string>, c: char)
    requires |parts| >= 1
    requires forall k :: 0 <= k < |parts| ==> c !in parts[k]
    ensures SplitOn(JoinWith(parts, c), c) == parts
    decreases |parts|
  {
    var s := JoinWith(parts, c);
    if |parts| == 1 {
      assert LastIndexOf(s, c) == None;
    } else {
      var init := parts[..|parts| - 1];
      var last := parts[|parts| - 1];
      var k := |JoinWith(init, c)|;
      assert s[k] == c && s[..k] == JoinWith(init, c) && s[k + 1..] == last;
      assert LastIndexOf(s, c) == Some(k);
      SplitJoinRoundTrip(init, c);
    }
  }

  /** A character the HTML standard's valid e-mail address grammar allows before
      the `@`. */
  predicate IsHtmlLocalChar(c: char)
  {
    IsLetter(c) || IsDigit(c) || c in ".!#$%&'*+/=?^_`{|}~-"
  }

  /** A domain label of that grammar: 1 to 63 letters, digits and hyphens, with a
      letter or a digit at each end. */
  predicate IsHostLabel(l: string)
  {
    && 1 <= |l| <= 63
    && (forall i :: 0 <= i < |l| ==> IsLetter(l[i]) || IsDigit(l[i]) || l[i] == '-')
    && l[0] != '-' && l[|l| - 1] != '-'
  }

  /** The browser's constraint check of the email input, which runs before the
      submit event because the form does not switch it off. An empty value passes,
      since the input has no `required` attribute; any other value must be a valid
      e-mail address: a non-empty local part, an `@`, and dot-separated labels. */
  predicate NativeEmailCheck(s: string)
  {
    s == "" ||
    match IndexOf(s, '@')
    case None => false
    case Some(at) =>
      && at >= 1
      && (forall i :: 0 <= i < at ==> IsHtmlLocalChar(s[i]))
      && (forall l | l in SplitOn(s[at + 1..], '.') :: IsHostLabel(l))
  }

  /** An address both checks let through, told by its labels: a local part of the
      pattern's class, an `@`, at least two labels, and a last label of two or more
      letters. */
  predicate SubmittableEmail(s: string)
  {
    match IndexOf(s, '@')
    case None => false
    case Some(at) =>
      && at >= 1
      && (forall i :: 0 <= i < at ==> IsLocalChar(s[i]))
      && WellFormedDomain(s[at + 1..])
  }

  /** Two or more host labels, the last of two or more letters. */
  predicate WellFormedDomain(d: string)
  {
    var labels := SplitOn(d, '.');
    && |labels| >= 2
    && (forall l | l in labels :: IsHostLabel(l))
    && |labels[|labels| - 1]| >= 2
    && AllLetters(labels[|labels| - 1])
  }

  predicate AllLetters(t: string)
  {
    forall i :: 0 <= i < |t| ==> IsLetter(t[i])
  }

  /** The first occurrence, once found, is the one `IndexOf` reports. */
  lemma IndexOfAt(s: string, c: char, k: nat)
    requires k < |s| && s[k] == c
    requires forall j :: 0 <= j < k ==> s[j] != c
    ensures IndexOf(s, c) == Some(k)
  {
  }

  /** The last occurrence, once found, is the one `LastIndexOf` reports. */
  lemma LastIndexOfAt(s: string, c: char, k: nat)
    requires k < |s| && s[k] == c
    requires forall j :: k < j < |s| ==> s[j] != c
    ensures LastIndexOf(s, c) == Some(k)
  {
  }

  /** Labels joined by dots are made of the pattern's domain class. */
  lemma {:induction false} LabelsAreDomainChars(labels: seq<string>)
    requires forall l | l in labels :: IsHostLabel(l)
    ensures forall i :: 0 <= i < |JoinWith(labels, '.')| ==> IsDomainChar(JoinWith(labels, '.')[i])
    decreases |labels|
  {
    if |labels| == 1 {
      assert labels[0] in labels;
    } else if |labels| > 1 {
      var init := labels[..|labels| - 1];
      var last := labels[|labels| - 1];
      assert last in labels;
      assert forall l | l in init :: l in labels;
      LabelsAreDomainChars(init);
      var j := JoinWith(labels, '.');
      var ji := JoinWith(init, '.');
      assert j == ji + ['.'] + last;
      forall i | 0 <= i < |j|
        ensures IsDomainChar(j[i])
      {
        if i < |ji| {
          assert j[i] == ji[i];
        } else if i > |ji| {
          assert j[i] == last[i - |ji| - 1];
        }
      }
    }
  }

  /** The browser's check and the pattern together accept exactly the addresses
      `SubmittableEmail` describes. */
  lemma SubmittableEmailIff(s: string)
    ensures NativeEmailCheck(s) && IsValidEmail(s) <==> SubmittableEmail(s)
  {
    match IndexOf(s, '@')
    case None =>
    case Some(at) =>
      if NativeEmailCheck(s) && IsValidEmail(s) {
        AcceptedIsSubmittable(s, at);
      }
      if SubmittableEmail(s) {
        SubmittableIsValid(s, at);
        SubmittablePassesBrowser(s, at);
      }
  }

  lemma AcceptedIsSubmittable(s: string, at: nat)
    requires IndexOf(s, '@') == Some(at)
    requires NativeEmailCheck(s) && IsValidEmail(s)
    ensures SubmittableEmail(s)
  {
    var dot := LastIndexOf(s, '.').value;
    var at2 := IndexOf(s[..dot], '@').value;
    assert EmailShape(s, at2, dot);
    assert s[..dot][at] == '@';
    assert at2 == at;
    DomainOfShape(s, at, dot);
  }

  /** The domain of a matching address whose labels the browser accepts is well formed. */
  lemma DomainOfShape(s: string, at: nat, dot: nat)
    requires EmailShape(s, at, dot) && LastIndexOf(s, '.') == Some(dot)
    requires forall l | l in SplitOn(s[at + 1..], '.') :: IsHostLabel(l)
    ensures WellFormedDomain(s[at + 1..])
  {
    TopLevelDomainOfShape(s, at, dot);
    LastPartAfterLastDot(s[at + 1..], dot - at - 1);
  }

  /** In a matching address the domain's last dot is the text's last dot, and the
      two or more letters after it end the domain. */
  lemma TopLevelDomainOfShape(s: string, at: nat, dot: nat)
    requires EmailShape(s, at, dot) && LastIndexOf(s, '.') == Some(dot)
    ensures LastIndexOf(s[at + 1..], '.') == Some(dot - at - 1)
    ensures s[at + 1..][dot - at..] == s[dot + 1..]
    ensures |s[dot + 1..]| >= 2 && AllLetters(s[dot + 1..])
  {
    var d := s[at + 1..];
    forall j | dot - at - 1 < j < |d|
      ensures d[j] != '.'
    {
      assert d[j] == s[j + at + 1];
    }
    LastIndexOfAt(d, '.', dot - at - 1);
    var tld := s[dot + 1..];
    forall i | 0 <= i < |tld|
      ensures IsLetter(tld[i])
    {
      assert tld[i] == s[dot + 1 + i];
    }
  }

  /** With a last dot, the parts are those before it followed by the part after it. */
  lemma LastPartAfterLastDot(d: string, k: nat)
    requires LastIndexOf(d, '.') == Some(k)
    ensures SplitOn(d, '.') == SplitOn(d[..k], '.') + [d[k + 1..]]
    ensures |SplitOn(d, '.')| >= 2
  {
  }

  lemma SubmittableIsValid(s: string, at: nat)
    requires IndexOf(s, '@') == Some(at)
    requires SubmittableEmail(s)
    ensures IsValidEmail(s)
  {
    var k := DomainShape(s[at + 1..]);
    ValidFromParts(s, at, k);
  }

  /** Every character is of the pattern's domain class. */
  predicate AllDomainChars(t: string)
  {
    forall i :: 0 <= i < |t| ==> IsDomainChar(t[i])
  }

  /** A join is at least as long as its first part. */
  lemma {:induction false} JoinWithLength(parts: seq<string>, c: char)
    requires |parts| >= 1
    ensures |JoinWith(parts, c)| >= |parts[0]|
    decreases |parts|
  {
    if |parts| > 1 {
      JoinWithLength(parts[..|parts| - 1], c);
    }
  }

  /** A domain of two or more well-formed labels has a last dot with at least one
      character before it, and every character before it is of the pattern's
      domain class. */
  lemma DomainShape(d: string) returns (k: nat)
    requires WellFormedDomain(d)
    ensures LastIndexOf(d, '.') == Some(k)
    ensures 1 <= k
    ensures AllDomainChars(d[..k])
    ensures |d[k + 1..]| >= 2 && AllLetters(d[k + 1..])
  {
    k := LastIndexOf(d, '.').value;
    var labels := SplitOn(d, '.');
    var init := SplitOn(d[..k], '.');
    assert labels == init + [d[k + 1..]];
    assert forall l | l in init :: l in labels;
    LabelsAreDomainChars(init);
    SplitOnJoins(d[..k], '.');
    JoinWithLength(init, '.');
    assert IsHostLabel(init[0]);
  }

  /** The pattern's shape, read off the parts of an address. */
  lemma ValidFromParts(s: string, at: nat, k: nat)
    requires IndexOf(s, '@') == Some(at) && at >= 1
    requires forall i :: 0 <= i < at ==> IsLocalChar(s[i])
    requires LastIndexOf(s[at + 1..], '.') == Some(k) && 1 <= k
    requires AllDomainChars(s[at + 1..][..k])
    requires |s[at + 1..][k + 1..]| >= 2 && AllLetters(s[at + 1..][k + 1..])
    ensures IsValidEmail(s)
  {
    var dot := at + 1 + k;
    DomainDotIsLast(s, at, k);
    assert s[..dot][at] == '@';
    IndexOfAt(s[..dot], '@', at);
    ShapeFromParts(s, at, k);
  }

  /** The domain's last dot is the text's last dot. */
  lemma DomainDotIsLast(s: string, at: nat, k: nat)
    requires at < |s| && LastIndexOf(s[at + 1..], '.') == Some(k)
    ensures LastIndexOf(s, '.') == Some(at + 1 + k)
  {
    NoDotAfter(s, at, k);
    LastIndexOfAt(s, '.', at + 1 + k);
  }

  lemma NoDotAfter(s: string, at: nat, k: nat)
    requires at < |s| && LastIndexOf(s[at + 1..], '.') == Some(k)
    ensures s[at + 1 + k] == '.'
    ensures forall j :: at + 1 + k < j < |s| ==> s[j] != '.'
  {
    var d := s[at + 1..];
    forall j | at + 1 + k < j < |s|
      ensures s[j] != '.'
    {
      assert s[j] == d[j - at - 1];
    }
  }

  lemma ShapeFromParts(s: string, at: nat, k: nat)
    requires at < |s| && s[at] == '@' && at >= 1
    requires forall i :: 0 <= i < at ==> IsLocalChar(s[i])
    requires k < |s[at + 1..]| && s[at + 1..][k] == '.' && 1 <= k
    requires AllDomainChars(s[at + 1..][..k])
    requires |s[at + 1..][k + 1..]| >= 2 && AllLetters(s[at + 1..][k + 1..])
    ensures EmailShape(s, at, at + 1 + k)
  {
    var dot := at + 1 + k;
    var dom := s[at + 1..][..k];
    var tld := s[at + 1..][k + 1..];
    assert dom == s[at + 1..dot];
    assert tld == s[dot + 1..];
    forall i | at < i < dot
      ensures IsDomainChar(s[i])
    {
      assert s[i] == dom[i - at - 1];
    }
    forall i | dot < i < |s|
      ensures IsLetter(s[i])
    {
      assert s[i] == tld[i - dot - 1];
    }
  }

  lemma SubmittablePassesBrowser(s: string, at: nat)
    requires IndexOf(s, '@') == Some(at)
    requires SubmittableEmail(s)
    ensures NativeEmailCheck(s)
  {
    forall i | 0 <= i < at
      ensures IsHtmlLocalChar(s[i])
    {
      assert IsLocalChar(s[i]);
    }
  }

  /** Addresses the pattern lets through and the browser stops: an empty label,
      and a label ending in a hyphen. */
  lemma BrowserStopsPatternMatches()
    ensures MatchesEmailPattern("a@.b.com") && !NativeEmailCheck("a@.b.com")
    ensures MatchesEmailPattern("a@b-.com") && !NativeEmailCheck("a@b-.com")
  {
    assert EmailShape("a@.b.com", 1, 4);
    assert EmailShape("a@b-.com", 1, 4);
    EmptyLabelStopped();
    HyphenEndStopped();
  }

  lemma EmptyLabelStopped()
    ensures !NativeEmailCheck("a@.b.com")
  {
    var s := "a@.b.com";
    IndexOfAt(s, '@', 1);
    var d := s[2..];
    assert d == ".b.com";
    LastIndexOfAt(d, '.', 2);
    assert d[..2] == ".b";
    LastIndexOfAt(".b", '.', 0);
    assert ".b"[..0] == "";
    assert SplitOn(".b", '.') == SplitOn("", '.') + ["b"];
    var labels := SplitOn(d, '.');
    assert labels[0] == "" && labels[0] in labels && !IsHostLabel(labels[0]);
  }

  lemma HyphenEndStopped()
    ensures !NativeEmailCheck("a@b-.com")
  {
    var s := "a@b-.com";
    IndexOfAt(s, '@', 1);
    var d := s[2..];
    assert d == "b-.com";
    LastIndexOfAt(d, '.', 2);
    assert d[..2] == "b-";
    assert LastIndexOf("b-", '.') == None;
    assert SplitOn("b-", '.') == ["b-"];
    var labels := SplitOn(d, '.');
    assert labels[0] == "b-" && labels[0] in labels && !IsHostLabel(labels[0]);
  }

  // ---- field rules ----------------------------------------------------------

  /** The message under `field`, or `None` when it passes: a required rule fails
      on an empty value and comes before the length or pattern rule. */
  function ProfileRule(d: ProfileFormData, field: ProfileField): (err: Option<string>)
  {
    match field
    case Username =>
      if d.username == "" then Some("Username is required")
      else if |d.username| < 3 then Some("Username must be at least 3 characters")
      else None
    case Email =>
      if d.email == "" then Some("Email is required")
      else if !IsValidEmail(d.email) then Some("Invalid email address")
      else None
    case Country =>
      if d.country == "" then Some("Country is required") else None
    case Phone => None
    case Desc => None
  }

  predicate ProfileAccepts(d: ProfileFormData)
  {
    forall field | field in AllProfileFields :: ProfileRule(d, field).None?
  }

  /** The form is sent exactly when the username has three or more characters, the
      email matches the pattern and the country is filled; phone and description
      never stop it. */
  lemma ProfileAcceptsIff(d: ProfileFormData)
    ensures ProfileAccepts(d) <==> |d.username| >= 3 && MatchesEmailPattern(d.email) && d.country != ""
  {
    IsValidEmailIff(d.email);
    if ProfileAccepts(d) {
      assert ProfileRule(d, Username).None? && ProfileRule(d, Email).None? && ProfileRule(d, Country).None?;
    }
  }

  /** The submit event reaches the form library only when the browser's check of
      the email input passes, and the values are sent only when the library's
      rules pass too. */
  predicate ProfileSubmits(d: ProfileFormData)
  {
    NativeEmailCheck(d.email) && ProfileAccepts(d)
  }

  /** The values are sent exactly when the username has three or more characters,
      the country is filled and the email is a local part of the pattern's class,
      an `@`, and two or more host labels ending in one of two or more letters. */
  lemma ProfileSubmitsIff(d: ProfileFormData)
    ensures ProfileSubmits(d) <==> |d.username| >= 3 && SubmittableEmail(d.email) && d.country != ""
  {
    ProfileAcceptsIff(d);
    IsValidEmailIff(d.email);
    SubmittableEmailIff(d.email);
  }

  /** Phone and description carry no rule of their own. */
  lemma OptionalFieldsNeverFail(d: ProfileFormData, phone: string, desc: string)
    ensures ProfileAccepts(d.(phone := phone, desc := desc)) <==> ProfileAccepts(d)
  {
    var e := d.(phone := phone, desc := desc);
    ProfileAcceptsIff(d);
    ProfileAcceptsIff(e);
  }

  /** The values `reset` loads from the signed-in user: the fields as they are,
      with a missing phone or description shown as empty. */
  function ResetValues(u: User): (v: ProfileFormData)
    ensures v.username == u.username && v.email == u.email && v.country == u.country
    ensures v.phone == (if u.phone.Some? then u.phone.value else "")
    ensures v.desc == (if u.desc.Some? then u.desc.value else "")
  {
    ProfileFormData(u.username, u.email, u.country, u.phone.GetOr(""), u.desc.GetOr(""))
  }

  // ---- seller statistics ----------------------------------------------------

  /** `reduce((sum, gig) => sum + f(gig), 0)`, folding from the left. */
  function SumOf(f: Gig -> int, gigs: seq<Gig>): int
  {
    if |gigs| == 0 then 0 else SumOf(f, gigs[..|gigs| - 1]) + f(gigs[|gigs| - 1])
  }

  lemma {:induction false} SumOfAppend(f: Gig -> int, a: seq<Gig>, b: seq<Gig>)
    ensures SumOf(f, a + b) == SumOf(f, a) + SumOf(f, b)
    decreases |b|
  {
    if |b| == 0 {
      assert a + b == a;
    } else {
      assert (a + b)[..|a + b| - 1] == a + b[..|b| - 1];
      SumOfAppend(f, a, b[..|b| - 1]);
    }
  }

  lemma {:induction false} SumOfNonNegative(f: Gig -> int, gigs: seq<Gig>)
    requires forall i :: 0 <= i < |gigs| ==> f(gigs[i]) >= 0
    ensures SumOf(f, gigs) >= 0
    decreases |gigs|
  {
    if |gigs| > 0 {
      SumOfNonNegative(f, gigs[..|gigs| - 1]);
    }
  }

  /** "Active Gigs": every gig the server returned for the user. */
  function ActiveGigs(gigs: seq<Gig>): (n: nat)
    ensures n == |gigs|
    ensures n == 0 <==> gigs == []
  {
    |gigs|
  }

  /** "Total Sales": the sum of the gigs' sales, 0 without gigs. */
  function TotalSales(gigs: seq<Gig>): (total: int)
    ensures gigs == [] ==> total == 0
  {
    SumOf((g: Gig) => g.sales, gigs)
  }

  /** Adding the gigs of two lists adds their totals. */
  lemma TotalSalesAppend(a: seq<Gig>, b: seq<Gig>)
    ensures TotalSales(a + b) == TotalSales(a) + TotalSales(b)
  {
    SumOfAppend((g: Gig) => g.sales, a, b);
  }

  /** A single gig's total is its own sales count; with the empty case and
      `TotalSalesAppend` this fixes the total of every list. */
  lemma TotalSalesSingle(g: Gig)
    ensures TotalSales([g]) == g.sales
  {
    var f := (x: Gig) => x.sales;
    assert [g][..|[g]| - 1] == [];
    assert SumOf(f, [g]) == SumOf(f, []) + f(g);
  }

  /** With no negative sales count the total is never negative. */
  lemma TotalSalesNonNegative(gigs: seq<Gig>)
    requires forall i :: 0 <= i < |gigs| ==> gigs[i].sales >= 0
    ensures TotalSales(gigs) >= 0
  {
    SumOfNonNegative((g: Gig) => g.sales, gigs);
  }

  /** "Average Rating": `NoGigsText` is the text "0.0" shown without gigs; `Mean`
      is the star sum over the gig count, shown with one decimal. */
  datatype AverageRating = NoGigsText | Mean(starSum: int, count: nat)

  function RatingShown(gigs: seq<Gig>): (r: AverageRating)
    ensures r.NoGigsText? <==> gigs == []
    ensures r.Mean? ==> r.count == |gigs| && r.count > 0 && r.starSum == SumOf((g: Gig) => g.starNumber, gigs)
  {
    if |gigs| > 0 then Mean(SumOf((g: Gig) => g.starNumber, gigs), |gigs|) else NoGigsText
  }

  /** The role line under the user's name. */
  function RoleText(me: Option<User>): (t: string)
    ensures t == "Seller" <==> me.Some? && me.value.isSeller
    ensures t == "Buyer" <==> !(me.Some? && me.value.isSeller)
  {
    if me.Some? && me.value.isSeller then "Seller" else "Buyer"
  }

  // ---- component state ------------------------------------------------------

  /** The component state of the profile page. */
  class ProfilePage {
    var isEditing: bool
    var userGigs: seq<Gig>
    var loading: bool
    var isSaving: bool
    var values: Option<ProfileFormData>

    constructor ()
      ensures !isEditing && userGigs == [] && loading && !isSaving && values == None
    {
      isEditing := false;
      userGigs := [];
      loading := true;
      isSaving := false;
      values := None;
    }

    /** `fetchUserGigs`: GET /gigs/user; the answer replaces the list and loading
        ends with either outcome. */
    method FetchUserGigs(response: Outcome<seq<Gig>>)
      modifies this
      ensures userGigs == if response.Ok? then response.payload else old(userGigs)
      ensures !loading
      ensures isEditing == old(isEditing) && isSaving == old(isSaving) && values == old(values)
    {
      if response.Ok? {
        userGigs := response.payload;
      }
      loading := false;
    }

    /** The effect on the signed-in user: reset the form to the user's values,
        then fetch the gigs of a seller, or end loading at once for anyone else. */
    method OnCurrentUser(me: Option<User>, response: Outcome<seq<Gig>>) returns (requested: bool)
      modifies this
      ensures requested <==> me.Some? && me.value.isSeller
      ensures values == if me.Some? then Some(ResetValues(me.value)) else old(values)
      ensures !loading
      ensures userGigs == if requested && response.Ok? then response.payload else old(userGigs)
      ensures requested && response.Ok? ==> ActiveGigs(userGigs) == |response.payload|
      ensures isEditing == old(isEditing) && isSaving == old(isSaving)
    {
      if me.Some? {
        values := Some(ResetValues(me.value));
      }
      requested := me.Some? && me.value.isSeller;
      if requested {
        FetchUserGigs(response);
      } else {
        loading := false;
      }
    }

    /** The Edit / Cancel toggle. */
    method ToggleEditing()
      modifies this
      ensures isEditing == !old(isEditing)
      ensures userGigs == old(userGigs) && loading == old(loading) && isSaving == old(isSaving) && values == old(values)
    {
      isEditing := !isEditing;
    }

    /** The form's submit: the browser's check of the email input and then the
        field rules run first; the values are then sent with saving set, editing
        ends when the server accepts them, and saving ends with either outcome. */
    method HandleSubmit(data: ProfileFormData, put: Outcome<()>)
      returns (sent: Option<ProfileFormData>, ghost savingAtRequest: bool)
      modifies this
      ensures sent.Some? <==> ProfileSubmits(data)
      ensures sent.Some? ==> sent.value == data && savingAtRequest && !isSaving
      ensures sent.None? ==> isSaving == old(isSaving) && isEditing == old(isEditing)
      ensures isEditing == if sent.Some? && put.Ok? then false else old(isEditing)
      ensures userGigs == old(userGigs) && loading == old(loading) && values == old(values)
    {
      savingAtRequest := isSaving;
      if !NativeEmailCheck(data.email) || !ProfileAccepts(data) {
        return None, savingAtRequest;
      }
      isSaving := true;
      sent := Some(data);
      savingAtRequest := isSaving;
      if put.Ok? {
        isEditing := false;
      }
      isSaving := false;
    }

    /** `handleDeleteGig`: nothing without confirmation; otherwise DELETE
        /gigs/:id, and after a success the list is fetched again. */
    method HandleDeleteGig(gigId: string, confirmed: bool, delete: Outcome<()>, refetch: Outcome<seq<Gig>>)
      returns (deleted: bool)
      modifies this
      ensures deleted <==> confirmed && delete.Ok?
      ensures deleted ==> !loading && userGigs == (if refetch.Ok? then refetch.payload else old(userGigs))
      ensures !deleted ==> userGigs == old(userGigs) && loading == old(loading)
      ensures isEditing == old(isEditing) && isSaving == old(isSaving) && values == old(values)
    {
      deleted := confirmed && delete.Ok?;
      if deleted {
        FetchUserGigs(refetch);
      }
    }
  }
}
