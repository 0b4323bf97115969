/**
 * The guard agent's checks (agents/guard.py): a query is searched for sensitive patterns,
 * the three built-in ones first and then the configured ones, and refused on the first hit.
 * `re.search(pattern, text, re.IGNORECASE)` is a parameter `search(pattern, text)`.
 */
module Guard {
  import opened Wrappers
  import opened Config

  /** The result dict of `check_sensitive_content`; `filtered_text` is None when unsafe. */
  datatype GuardResult = GuardResult(isSafe: bool, reason: string, filteredText: Option<string>)

  /** The result dict of `validate_query`; only an approved query carries `validated_query`. */
  datatype Validation = Validation(status: string, message: string, canProceed: bool, validatedQuery: Option<string>)

  const SsnPattern: string := "\\b\\d{3}-?\\d{2}-?\\d{4}\\b"
  const CreditCardPattern: string := "\\b\\d{4}[\\s-]?\\d{4}[\\s-]?\\d{4}[\\s-]?\\d{4}\\b"
  const TaiwanIdPattern: string := "\\b[A-Z][12]\\d{8}\\b"
  const DefaultPatterns: seq<string> := [SsnPattern, CreditCardPattern, TaiwanIdPattern]

  const DisabledReason: string := "Guard is disabled"
  const CleanReason: string := "No sensitive content detected"
  const DetectedPrefix: string := "Detected sensitive pattern: "

  /** `default_patterns + settings.guard_sensitive_patterns` */
  function AllPatterns(settings: Settings): seq<string> {
    DefaultPatterns + GuardSensitivePatterns(settings.guardSensitivePatternsStr)
  }

  /** The position of the first pattern that matches, or |patterns| when none does. */
  function FirstMatchIndex(patterns: seq<string>, text: string, search: (string, string) -> bool): (k: nat)
    ensures k <= |patterns|
    ensures forall j | 0 <= j < k :: !search(patterns[j], text)
    ensures k < |patterns| ==> search(patterns[k], text)
  {
    if patterns == [] then 0
    else if search(patterns[0], text) then 0
    else 1 + FirstMatchIndex(patterns[1..], text, search)
  }

  /** `check_sensitive_content(text)` */
  function CheckSensitiveContent(settings: Settings, text: string, search: (string, string) -> bool): (r: GuardResult)
    ensures !settings.guardEnabled ==> r == GuardResult(true, DisabledReason, Some(text))
    ensures r.isSafe <==> r.filteredText == Some(text)
    ensures !r.isSafe <==> r.filteredText == None
    ensures settings.guardEnabled ==>
      (r.isSafe <==> forall p | p in AllPatterns(settings) :: !search(p, text))
  {
    if !settings.guardEnabled then GuardResult(true, DisabledReason, Some(text))
    else
      var patterns := AllPatterns(settings);
      var k := FirstMatchIndex(patterns, text, search);
      if k < |patterns| then GuardResult(false, DetectedPrefix + patterns[k], None)
      else GuardResult(true, CleanReason, Some(text))
  }

  /** A refusal names the first pattern that matches, in list order. */
  lemma UnsafeNamesFirstMatch(settings: Settings, text: string, search: (string, string) -> bool)
    requires !CheckSensitiveContent(settings, text, search).isSafe
    ensures var patterns := AllPatterns(settings);
      exists k | 0 <= k < |patterns| ::
        && search(patterns[k], text)
        && (forall j | 0 <= j < k :: !search(patterns[j], text))
        && CheckSensitiveContent(settings, text, search).reason == DetectedPrefix + patterns[k]
  {
    var patterns := AllPatterns(settings);
    var k := FirstMatchIndex(patterns, text, search);
    assert search(patterns[k], text);
  }

  /** A built-in pattern that matches wins over every configured one. */
  lemma DefaultsComeFirst(settings: Settings, text: string, search: (string, string) -> bool, d: nat)
    requires settings.guardEnabled
    requires d < |DefaultPatterns| && search(DefaultPatterns[d], text)
    ensures var r := CheckSensitiveContent(settings, text, search);
      !r.isSafe && exists j | 0 <= j <= d :: r.reason == DetectedPrefix + DefaultPatterns[j]
  {
    var patterns := AllPatterns(settings);
    assert patterns[d] == DefaultPatterns[d];
    var k := FirstMatchIndex(patterns, text, search);
    assert k <= d;
    assert patterns[k] == DefaultPatterns[k];
  }

  /** With the guard off, no pattern is consulted: any two searches give the same result. */
  lemma DisabledIgnoresPatterns(settings: Settings, text: string, s1: (string, string) -> bool, s2: (string, string) -> bool)
    requires !settings.guardEnabled
    ensures CheckSensitiveContent(settings, text, s1) == CheckSensitiveContent(settings, text, s2)
    ensures CheckSensitiveContent(settings, text, s1).isSafe
  {
  }

  const RejectedMessage: string := "您的查詢包含敏感資訊，無法處理。"
  const ApprovedMessage: string := "查詢已通過安全檢查。"

  /** `validate_query(query)` */
  function ValidateQuery(settings: Settings, query: string, search: (string, string) -> bool): (v: Validation)
    ensures v.canProceed <==> CheckSensitiveContent(settings, query, search).isSafe
    ensures v.canProceed ==> v == Validation("approved", ApprovedMessage, true, Some(query))
    ensures !v.canProceed ==> v == Validation("rejected", RejectedMessage, false, None)
  {
    if !CheckSensitiveContent(settings, query, search).isSafe then Validation("rejected", RejectedMessage, false, None)
    else Validation("approved", ApprovedMessage, true, Some(query))
  }

  /** A query passes exactly when no pattern matches it (with the guard on). */
  lemma ValidateIffNoMatch(settings: Settings, query: string, search: (string, string) -> bool)
    requires settings.guardEnabled
    ensures ValidateQuery(settings, query, search).canProceed <==> forall p | p in AllPatterns(settings) :: !search(p, query)
    ensures ValidateQuery(settings, query, search).validatedQuery == Some(query) <==> ValidateQuery(settings, query, search).canProceed
  {
  }

  // A reference reading of the Taiwan-ID pattern `\b[A-Z][12]\d{8}\b` under IGNORECASE, over ASCII.

  predicate IsAsciiLetter(c: char) {
    'A' <= c <= 'Z' || 'a' <= c <= 'z'
  }

  predicate IsAsciiDigit(c: char) {
    '0' <= c <= '9'
  }

  predicate IsWordChar(c: char) {
    IsAsciiLetter(c) || IsAsciiDigit(c) || c == '_'
  }

  /** `\b` at position i: a word character on exactly one side. */
  predicate WordBoundary(t: string, i: nat)
    requires i <= |t|
  {
    (i > 0 && IsWordChar(t[i - 1])) != (i < |t| && IsWordChar(t[i]))
  }

  predicate TaiwanIdAt(t: string, i: nat) {
    && i + 10 <= |t|
    && WordBoundary(t, i)
    && IsAsciiLetter(t[i])
    && (t[i + 1] == '1' || t[i + 1] == '2')
    && (forall k | i + 2 <= k < i + 10 :: IsAsciiDigit(t[k]))
    && WordBoundary(t, i + 10)
  }

  predicate TaiwanIdMatch(t: string) {
    exists i: nat | i <= |t| :: TaiwanIdAt(t, i)
  }

  /** "My ID is A123456789" holds a Taiwan ID number, so a search that reads the pattern that way refuses it. */
  lemma TaiwanIdExample(settings: Settings, search: (string, string) -> bool)
    requires settings.guardEnabled
    requires search(TaiwanIdPattern, "My ID is A123456789") <==> TaiwanIdMatch("My ID is A123456789")
    ensures !CheckSensitiveContent(settings, "My ID is A123456789", search).isSafe
    ensures !ValidateQuery(settings, "My ID is A123456789", search).canProceed
  {
    var t := "My ID is A123456789";
    assert t[8] == ' ' && t[9] == 'A' && t[10] == '1';
    assert forall k | 11 <= k < 19 :: IsAsciiDigit(t[k]);
    assert TaiwanIdAt(t, 9);
    assert TaiwanIdPattern in AllPatterns(settings);
  }
}
