/**
 * The portal's own reading of Notion pages: property extractors that never
 * fail, `PREFIX-number` profile identifiers, the login check, the query
 * `getProjects` sends and the per-profile totals of `getStats`.
 */
module NotionLib {
  import opened Js
  import opened NotionData
  import opened NotionService

  // ---------------------------------------------------------------------
  // The `extract.*` property readers
  // ---------------------------------------------------------------------

  /** `rt?.[0]?.plain_text || ''` */
  function FirstText(rt: Option<seq<RichText>>): string {
    if rt.Some? && |rt.value| > 0 then rt.value[0].plainText else ""
  }

  function ExtractTitle(p: Option<Property>): string { FirstText(TitleOf(p)) }

  function ExtractRichText(p: Option<Property>): string { FirstText(RichTextOf(p)) }

  /** `p?.number ?? 0`: only a missing number becomes 0. */
  function ExtractNumber(p: Option<Property>): int { Default(NumberOf(p), 0) }

  function ExtractSelect(p: Option<Property>): string { StrOr(SelectNameOf(p), "") }

  function ExtractUrl(p: Option<Property>): string { StrOr(UrlOf(p), "") }

  function ExtractEmail(p: Option<Property>): string { StrOr(EmailOf(p), "") }

  function ExtractPhone(p: Option<Property>): string {
    match PhoneNumberOf(p)
    case Present(s) => s
    case _ => ""
  }

  function ExtractRelation(p: Option<Property>): seq<string> { Default(RelationOf(p), []) }

  /** The value of a formula: its string, else its number, else `null`. */
  datatype FormulaResult = FormulaText(text: string) | FormulaNumber(number: int) | FormulaNull

  /** `p?.formula?.string ?? p?.formula?.number ?? null` */
  function ExtractFormula(p: Option<Property>): FormulaResult {
    if p.Some? && p.value.FormulaValue? && p.value.formulaString.Some? then FormulaText(p.value.formulaString.value)
    else if p.Some? && p.value.FormulaValue? && p.value.formulaNumber.Some? then FormulaNumber(p.value.formulaNumber.value)
    else FormulaNull
  }

  /** `unique_id` as text: `prefix-number`, or the bare number without a
      prefix, or `''` when the property is missing. */
  function ExtractUniqueId(p: Option<Property>): string {
    if !(p.Some? && p.value.UniqueIdValue?) then ""
    else FormatUniqueId(p.value.prefix, p.value.idNumber)
  }

  function FormatUniqueId(prefix: Option<string>, n: nat): string {
    if StrTruthy(prefix) then prefix.value + "-" + NatToString(n) else NatToString(n)
  }

  /** The readers fall back to their defaults on a missing property or one
      of another type; a number reads as itself, 0 included, and only a
      number that is not set reads as 0. */
  lemma ExtractorDefaults(p: Option<Property>, n: int)
    ensures p.None? ==>
      (ExtractTitle(p) == "" && ExtractRichText(p) == "" && ExtractNumber(p) == 0
       && ExtractSelect(p) == "" && ExtractUrl(p) == "" && ExtractEmail(p) == "" && ExtractPhone(p) == ""
       && ExtractRelation(p) == [] && ExtractFormula(p) == FormulaNull && ExtractUniqueId(p) == "")
    ensures ExtractNumber(Some(NumberValue(Some(n)))) == n
    ensures ExtractNumber(Some(NumberValue(None))) == 0
    ensures ExtractNumber(p) != 0 ==> NumberOf(p) == Some(ExtractNumber(p))
  {
  }

  /** A title of one fragment reads the same here and through the order
      service's `richTextToString`; with several fragments only the first
      is read here. */
  lemma ExtractTitleAgreesWithService(rt: seq<RichText>)
    ensures |rt| == 1 ==> ExtractTitle(Some(TitleValue(rt))) == RichTextToString(Some(rt))
    ensures |rt| >= 1 ==> ExtractTitle(Some(TitleValue(rt))) == rt[0].plainText
    ensures rt == [] ==> ExtractTitle(Some(TitleValue(rt))) == "" == RichTextToString(Some(rt))
  {
    JoinPlainTextLength(rt);
  }

  /** The unique id's text: with a prefix, the prefix, a dash and the
      digits; without, just the digits. */
  lemma UniqueIdText(prefix: Option<string>, n: nat)
    ensures StrTruthy(prefix) ==> FormatUniqueId(prefix, n) == prefix.value + "-" + NatToString(n)
    ensures !StrTruthy(prefix) ==> FormatUniqueId(prefix, n) == NatToString(n)
    ensures |FormatUniqueId(prefix, n)| > 0
  {
  }

  // ---------------------------------------------------------------------
  // Profile ids: /^NCTV-?(\d+)$/i
  // ---------------------------------------------------------------------

  /** The first four characters spell `NCTV`, ignoring letter case. */
  predicate NctvHead(s: string) {
    |s| >= 4 && UpperChar(s[0]) == 'N' && UpperChar(s[1]) == 'C' && UpperChar(s[2]) == 'T' && UpperChar(s[3]) == 'V'
  }

  /** The digits after the prefix and the optional dash. */
  function ProfileDigits(s: string): string
    requires |s| >= 4
  {
    var rest := s[4..];
    if |rest| > 0 && rest[0] == '-' then rest[1..] else rest
  }

  /** The profile number a login id names, or `null` when it does not
      match: `NCTV` in any letter case, an optional dash, and one or more
      decimal digits, nothing before or after. */
  function ParseProfileId(s: string): (r: Option<nat>)
    ensures r.Some? ==> |s| > 4 && NctvHead(s)
  {
    if NctvHead(s) && |ProfileDigits(s)| > 0 && AllDigits(ProfileDigits(s))
    then Some(DigitsValue(ProfileDigits(s)))
    else None
  }

  /** Only ids of the documented form parse: a parsed id is the prefix,
      an optional dash and one or more digits, and its number is the
      value of those digits. */
  lemma ParsedIdSpells(s: string)
    ensures ParseProfileId(s).Some? ==>
      exists dash: bool, d: string :: Spells(s, dash, d) && ParseProfileId(s).value == DigitsValue(d)
  {
    if ParseProfileId(s).Some? {
      var dash := s[4] == '-';
      SplitsAtHead(s, dash);
      assert Spells(s, dash, ProfileDigits(s));
    }
  }

  /** `s` is four prefix characters, then a dash when `dash`, then the
      non-empty decimal digits `d`. */
  predicate Spells(s: string, dash: bool, d: string) {
    |s| >= 4 && |d| > 0 && AllDigits(d) && s == s[..4] + (if dash then "-" else "") + d
  }

  /** A string past the prefix is the prefix, the dash if it has one, and
      the digits. */
  lemma SplitsAtHead(s: string, dash: bool)
    requires |s| > 4 && dash == (s[4] == '-')
    ensures s == s[..4] + (if dash then "-" else "") + ProfileDigits(s)
  {
    if dash {
      assert s == s[..4] + [s[4]] + s[5..];
    } else {
      assert s == s[..4] + s[4..];
    }
  }

  /** Formatting a profile number with the `NCTV` prefix and parsing it
      back gives the number. */
  lemma ProfileIdRoundTrip(n: nat)
    ensures ParseProfileId(FormatUniqueId(Some("NCTV"), n)) == Some(n)
  {
    DigitsValueOfNatToString(n);
    ParsesPrefixed("NCTV", true, NatToString(n));
  }

  /** The prefix may be written in any letter case and the dash left
      out. */
  lemma ProfileIdSpellings(n: nat)
    ensures ParseProfileId("NCTV" + NatToString(n)) == Some(n)
    ensures ParseProfileId("nctv" + NatToString(n)) == Some(n)
    ensures ParseProfileId("Nctv" + "-" + NatToString(n)) == Some(n)
  {
    var d := NatToString(n);
    DigitsValueOfNatToString(n);
    ParsesUndashed("NCTV", d);
    ParsesUndashed("nctv", d);
    ParsesPrefixed("Nctv", true, d);
  }

  lemma ParsesUndashed(head: string, digits: string)
    requires |head| == 4 && NctvHead(head)
    requires |digits| > 0 && AllDigits(digits)
    ensures ParseProfileId(head + digits) == Some(DigitsValue(digits))
  {
    ParsesPrefixed(head, false, digits);
    assert head + "" + digits == head + digits;
  }

  lemma ParsesPrefixed(head: string, dash: bool, digits: string)
    requires |head| == 4 && NctvHead(head)
    requires |digits| > 0 && AllDigits(digits)
    ensures ParseProfileId(head + (if dash then "-" else "") + digits) == Some(DigitsValue(digits))
  {
    var s := head + (if dash then "-" else "") + digits;
    HeadKept(head, if dash then "-" else "", digits);
    DigitsAfterHead(head, dash, digits);
    assert NctvHead(s) && ProfileDigits(s) == digits;
  }

  lemma HeadKept(head: string, sep: string, digits: string)
    requires |head| == 4 && NctvHead(head)
    ensures NctvHead(head + sep + digits)
  {
    var s := head + sep + digits;
    assert s[0] == head[0] && s[1] == head[1] && s[2] == head[2] && s[3] == head[3];
  }

  lemma DigitsAfterHead(head: string, dash: bool, digits: string)
    requires |head| == 4
    requires |digits| > 0 && AllDigits(digits)
    ensures ProfileDigits(head + (if dash then "-" else "") + digits) == digits
  {
    var s := head + (if dash then "-" else "") + digits;
    if dash {
      assert s[4..] == "-" + digits;
    } else {
      assert s[4..] == digits;
      assert IsDigit(digits[0]);
    }
  }

  /** Ids without the prefix, with nothing after it, or with anything but
      digits after the dash are refused. */
  lemma ProfileIdRejects(n: nat)
    ensures ParseProfileId(NatToString(n)) == None
    ensures ParseProfileId("NCTV") == None
    ensures ParseProfileId("NCTV-") == None
    ensures ParseProfileId("NCTV-1a") == None
    ensures ParseProfileId("NCTV--1") == None
  {
    var d := NatToString(n);
    if |d| >= 4 {
      assert IsDigit(d[0]);
    }
    assert ProfileDigits("NCTV-1a") == "1a";
    assert !IsDigit("1a"[1]);
    assert ProfileDigits("NCTV--1") == "-1";
    assert !IsDigit("-1"[0]);
  }

  // ---------------------------------------------------------------------
  // getVIPProfile and verifyLogin
  // ---------------------------------------------------------------------

  datatype VipProfile = VipProfile(
    id: string, profileId: string, name: string, password: string,
    phone: string, email: string, driveFolder: string, createdAt: int)

  /** The profile record built from the page the store found. */
  function VipProfileOf(page: Page<VipRow>): VipProfile {
    var p := page.properties;
    VipProfile(page.id, ExtractUniqueId(p.profileId), ExtractTitle(p.name), ExtractRichText(p.password),
      ExtractPhone(p.phone), ExtractEmail(p.email), ExtractUrl(p.driveFolder), page.createdTime)
  }

  /** `const { password: _, ...safe } = profile` */
  datatype SafeProfile = SafeProfile(
    id: string, profileId: string, name: string, phone: string, email: string, driveFolder: string, createdAt: int)

  function WithoutPassword(v: VipProfile): SafeProfile {
    SafeProfile(v.id, v.profileId, v.name, v.phone, v.email, v.driveFolder, v.createdAt)
  }

  /** `getVIPProfileById`: the same record read from a page fetched by its
      id, without the password. */
  function VipProfileById(page: Page<VipRow>): (r: SafeProfile)
    ensures r == WithoutPassword(VipProfileOf(page))
  {
    var p := page.properties;
    SafeProfile(page.id, ExtractUniqueId(p.profileId), ExtractTitle(p.name),
      ExtractPhone(p.phone), ExtractEmail(p.email), ExtractUrl(p.driveFolder), page.createdTime)
  }

  datatype LoginError = NotFound | WrongPassword

  datatype LoginResult = LoggedIn(profile: SafeProfile) | LoginFailed(error: LoginError)

  /** `verifyLogin` over the profile the lookup found (`None` for `null`). */
  function VerifyLogin(found: Option<VipProfile>, password: string): LoginResult {
    if found.None? then LoginFailed(NotFound)
    else if ToUpper(found.value.password) != ToUpper(password) then LoginFailed(WrongPassword)
    else LoggedIn(WithoutPassword(found.value))
  }

  /** No profile gives NOT_FOUND; otherwise the login fails with
      WRONG_PASSWORD exactly when the upper-cased passwords differ, and a
      successful login returns every field of the profile except the
      password. */
  lemma LoginOutcomes(found: Option<VipProfile>, password: string)
    ensures found.None? <==> VerifyLogin(found, password) == LoginFailed(NotFound)
    ensures found.Some? ==>
      (VerifyLogin(found, password) == LoginFailed(WrongPassword) <==> ToUpper(found.value.password) != ToUpper(password))
    ensures VerifyLogin(found, password).LoggedIn? ==>
      var v, s := found.value, VerifyLogin(found, password).profile;
      s.id == v.id && s.profileId == v.profileId && s.name == v.name && s.phone == v.phone
      && s.email == v.email && s.driveFolder == v.driveFolder && s.createdAt == v.createdAt
  {
  }

  lemma UpperOfLower(s: string)
    ensures ToUpper(ToLower(s)) == ToUpper(s)
  {
    var a, b := ToUpper(ToLower(s)), ToUpper(s);
    assert |a| == |b|;
    forall i | 0 <= i < |s| ensures a[i] == b[i] {
      assert a[i] == UpperChar(LowerChar(s[i]));
    }
  }

  /** The password check ignores the letter case of either password. */
  lemma LoginIgnoresCase(found: Option<VipProfile>, password: string)
    ensures VerifyLogin(found, ToLower(password)) == VerifyLogin(found, password)
    ensures VerifyLogin(found, ToUpper(password)) == VerifyLogin(found, password)
  {
    UpperOfLower(password);
    ToUpperIdempotent(password);
  }

  // ---------------------------------------------------------------------
  // getProjects: the query and the records
  // ---------------------------------------------------------------------

  /** The query filter: the profile relation, with or without a condition
      on `Status` being `Done`. */
  datatype ProjectsFilter =
    | OfProfile(vipPageId: string)
    | OfProfileNotDone(vipPageId: string)
    | OfProfileDone(vipPageId: string)

  datatype SortKey = CreatedTime | Total

  datatype Sort = Sort(key: SortKey, descending: bool)

  function ProjectsFilterOf(vipPageId: string, status: Option<string>): (f: ProjectsFilter)
    ensures f.vipPageId == vipPageId
  {
    if status == Some("active") then OfProfileNotDone(vipPageId)
    else if status == Some("completed") then OfProfileDone(vipPageId)
    else OfProfile(vipPageId)
  }

  /** `sortBy` defaults to `date_desc`; an unknown value sorts nothing. */
  function ProjectSorts(sortBy: Option<string>): (r: seq<Sort>)
    ensures |r| <= 1
  {
    var s := Default(sortBy, "date_desc");
    if s == "date_desc" then [Sort(CreatedTime, true)]
    else if s == "date_asc" then [Sort(CreatedTime, false)]
    else if s == "amount_desc" then [Sort(Total, true)]
    else if s == "amount_asc" then [Sort(Total, false)]
    else []
  }

  /** `getProjects` reads a single page of at most 100 results. */
  const ProjectsPageSize: nat := 100

  /** The query `getProjects` sends to the store. */
  datatype ProjectsQuery = ProjectsQuery(filter: ProjectsFilter, sorts: seq<Sort>, pageSize: nat)

  function GetProjectsQuery(vipPageId: string, status: Option<string>, sortBy: Option<string>): ProjectsQuery {
    ProjectsQuery(ProjectsFilterOf(vipPageId, status), ProjectSorts(sortBy), ProjectsPageSize)
  }

  lemma ProjectsQueryChoices(vipPageId: string, status: Option<string>, sortBy: Option<string>)
    ensures ProjectsFilterOf(vipPageId, status).OfProfileNotDone? <==> status == Some("active")
    ensures ProjectsFilterOf(vipPageId, status).OfProfileDone? <==> status == Some("completed")
    ensures ProjectSorts(sortBy) == [] <==>
      sortBy.Some? && sortBy.value !in {"date_desc", "date_asc", "amount_desc", "amount_asc"}
    ensures sortBy.None? ==> ProjectSorts(sortBy) == [Sort(CreatedTime, true)]
    ensures GetProjectsQuery(vipPageId, status, sortBy).pageSize == 100
  {
  }

  /** `extract.formula(p) || extract.rich_text(p)`: a text or a number. */
  datatype CustomerId = IdText(text: string) | IdNumber(number: int)

  function CustomerIdOf(p: Option<Property>): CustomerId {
    match ExtractFormula(p)
    case FormulaText(s) => if s != "" then IdText(s) else IdText(ExtractRichText(p))
    case FormulaNumber(n) => if n != 0 then IdNumber(n) else IdText(ExtractRichText(p))
    case FormulaNull => IdText(ExtractRichText(p))
  }

  datatype Project = Project(
    id: string, customerId: CustomerId, documentName: string, language: string,
    pages: int, words: int, status: string, paymentStatus: string, total: int,
    folder: string, pdfFolder: string, createdAt: int)

  function ProjectOf(page: Page<OrderRow>): Project {
    var p := page.properties;
    Project(page.id, CustomerIdOf(p.customerId), ExtractTitle(p.documentName), ExtractSelect(p.language),
      ExtractNumber(p.totalPages), ExtractNumber(p.totalWords), ExtractSelect(p.status),
      ExtractSelect(p.paymentStatus), ExtractNumber(p.total), ExtractUrl(p.customerFolder),
      ExtractUrl(p.pdfFolder), page.createdTime)
  }

  /** A customer id is a number only when the formula yields a non-zero
      number without a string; a falsy formula falls back to the text. */
  lemma CustomerIdChoice(p: Option<Property>)
    ensures CustomerIdOf(p).IdNumber? <==>
      p.Some? && p.value.FormulaValue? && p.value.formulaString.None?
      && p.value.formulaNumber.Some? && p.value.formulaNumber.value != 0
    ensures CustomerIdOf(p).IdText? && !(ExtractFormula(p).FormulaText? && ExtractFormula(p).text != "") ==>
      CustomerIdOf(p).text == ExtractRichText(p)
  {
  }

  // ---------------------------------------------------------------------
  // getStats
  // ---------------------------------------------------------------------

  datatype Stats = Stats(totalPages: int, totalWords: int, totalSpent: int, activeProjects: nat, completedProjects: nat)

  /** The `reduce` over the profile's projects, in order. */
  function StatsOf(projects: seq<Project>): Stats {
    if projects == [] then Stats(0, 0, 0, 0, 0)
    else
      var s := StatsOf(projects[..|projects| - 1]);
      var p := projects[|projects| - 1];
      Stats(s.totalPages + p.pages, s.totalWords + p.words, s.totalSpent + p.total,
        s.activeProjects + (if p.status != "Done" then 1 else 0),
        s.completedProjects + (if p.status == "Done" then 1 else 0))
  }

  /** The number of projects whose status is `Done`. */
  function DoneCount(projects: seq<Project>): nat {
    if projects == [] then 0 else (if projects[0].status == "Done" then 1 else 0) + DoneCount(projects[1..])
  }

  /** The three amounts `getStats` adds up. */
  datatype Amount = Pages | Words | Spent

  function AmountOf(p: Project, a: Amount): int {
    match a
    case Pages => p.pages
    case Words => p.words
    case Spent => p.total
  }

  function SumOf(projects: seq<Project>, a: Amount): int {
    if projects == [] then 0 else AmountOf(projects[0], a) + SumOf(projects[1..], a)
  }

  function StatsAmount(s: Stats, a: Amount): int {
    match a
    case Pages => s.totalPages
    case Words => s.totalWords
    case Spent => s.totalSpent
  }

  lemma {:induction false} SnocSums(ps: seq<Project>, p: Project, a: Amount)
    ensures DoneCount(ps + [p]) == DoneCount(ps) + (if p.status == "Done" then 1 else 0)
    ensures SumOf(ps + [p], a) == SumOf(ps, a) + AmountOf(p, a)
    decreases |ps|
  {
    if ps == [] {
      assert [] + [p] == [p];
    } else {
      assert (ps + [p])[1..] == ps[1..] + [p];
      SnocSums(ps[1..], p, a);
    }
  }

  /** Every project is either active or completed, completed meaning
      status `Done`; each total is the sum of that amount over the
      projects. */
  lemma {:induction false} StatsCounts(projects: seq<Project>, a: Amount)
    ensures StatsOf(projects).activeProjects + StatsOf(projects).completedProjects == |projects|
    ensures StatsOf(projects).completedProjects == DoneCount(projects)
    ensures StatsAmount(StatsOf(projects), a) == SumOf(projects, a)
    decreases |projects|
  {
    if projects != [] {
      var front := projects[..|projects| - 1];
      StatsCounts(front, a);
      SnocSums(front, projects[|projects| - 1], a);
      assert front + [projects[|projects| - 1]] == projects;
    }
  }

  /** `getStats` asks `getProjects` without options: the profile's
      projects, newest first, one page of at most 100. */
  lemma StatsQuery(vipPageId: string)
    ensures GetProjectsQuery(vipPageId, None, None) == ProjectsQuery(OfProfile(vipPageId), [Sort(CreatedTime, true)], 100)
  {
  }

  /** `getStats` counts only the page the store returns: the newest 100
      projects at most, so for a profile with more than 100 the active
      and completed counts together fall short of its number of
      projects. */
  lemma StatsSeeOnePage(matching: seq<Project>)
    ensures var s := StatsOf(FirstPage(matching, ProjectsPageSize));
      var n := s.activeProjects + s.completedProjects;
      && n == (if |matching| <= ProjectsPageSize then |matching| else ProjectsPageSize)
      && (|matching| > ProjectsPageSize ==> n < |matching|)
      && s.completedProjects == DoneCount(matching[..n])
  {
    StatsCounts(FirstPage(matching, ProjectsPageSize), Pages);
  }
}
