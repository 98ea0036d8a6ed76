/** Reply-To routing addresses (src/lib/email/routing.ts): the printer
    `local+c_<32 hex>@domain` and its two parsers. */
module Routing {
  import opened Text

  const TAG := "+c_"
  const TOKEN_LENGTH := 32

  datatype Mailbox = Mailbox(local: string, domain: string)

  datatype Candidate = Candidate(routingToken: string, baseAddress: string)

  predicate IsHex(c: char) {
    '0' <= c <= '9' || 'a' <= c <= 'f'
  }

  predicate IsHexToken(s: string) {
    |s| == TOKEN_LENGTH && forall i | 0 <= i < |s| :: IsHex(s[i])
  }

  predicate IsLocalChar(c: char) {
    || c == '!' || '#' <= c <= '\'' || c == '*' || '-' <= c <= '9' || c == '=' || c == '?'
    || '^' <= c <= '~'
  }

  predicate IsAlphaNumeric(c: char) {
    'a' <= c <= 'z' || '0' <= c <= '9'
  }

  predicate IsLabel(part: string) {
    && 0 < |part| <= 63
    && (forall i | 0 <= i < |part| :: IsAlphaNumeric(part[i]) || part[i] == '-')
    && IsAlphaNumeric(part[0]) && IsAlphaNumeric(part[|part| - 1])
  }

  predicate ValidLocal(local: string) {
    && 0 < |local|
    && (forall i | 0 <= i < |local| :: IsLocalChar(local[i]))
    && local[0] != '.' && local[|local| - 1] != '.'
    && (forall i, j | 0 <= i < |local| && 0 <= j < |local| && j == i + 1 :: local[i] == '.' ==> local[j] != '.')
  }

  function GeneratedLocalLength(local: string): nat {
    |local| + |TAG| + TOKEN_LENGTH
  }

  predicate ValidMailbox(m: Mailbox) {
    var labels := Split(m.domain, '.');
    && ValidLocal(m.local)
    && GeneratedLocalLength(m.local) <= 64
    && |m.domain| <= 253
    && |labels| >= 2
    && (forall i | 0 <= i < |labels| :: IsLabel(labels[i]))
    && GeneratedLocalLength(m.local) + |m.domain| + 1 <= 254
  }

  function Format(m: Mailbox): string {
    m.local + "@" + m.domain
  }

  function ParseBaseMailbox(address: string): Option<Mailbox> {
    var normalized := Normalize(address);
    var at := LastIndexOf(normalized, "@", |normalized|);
    if at <= 0 || at == |normalized| - 1 || '<' in normalized || '>' in normalized || '+' in normalized[..at] then
      None
    else
      var m := Mailbox(normalized[..at], normalized[at + 1..]);
      if ValidMailbox(m) then Some(m) else None
  }

  predicate IsValidReplyToBaseAddress(address: string) {
    ParseBaseMailbox(address).Some?
  }

  function StripDashes(s: string): string {
    if s == [] then []
    else if s[0] == '-' then StripDashes(s[1..])
    else [s[0]] + StripDashes(s[1..])
  }

  /** The hyphenated form in which PostgreSQL stores a UUID. */
  function Hyphenate(token: string): string
    requires IsHexToken(token)
  {
    token[..8] + "-" + token[8..12] + "-" + token[12..16] + "-" + token[16..20] + "-" + token[20..]
  }

  function CompactToken(routingToken: string): string {
    Lower(StripDashes(routingToken))
  }

  function Print(m: Mailbox, token: string): string {
    m.local + TAG + token + "@" + m.domain
  }

  /** None stands for the thrown `Invalid conversation Reply-To configuration`. */
  function BuildConversationReplyTo(baseAddress: string, routingToken: string): Option<string> {
    var base := ParseBaseMailbox(baseAddress);
    var token := CompactToken(routingToken);
    if base.None? || !IsHexToken(token) then None else Some(Print(base.value, token))
  }

  // --- One address ---------------------------------------------------------

  function CandidateOf(rawAddress: string): Option<Candidate> {
    CandidateIn(Normalize(rawAddress))
  }

  function CandidateIn(address: string): Option<Candidate> {
    var at := LastIndexOf(address, "@", |address|);
    var marker := LastIndexOf(address, TAG, if at < 0 then 0 else at);
    if at <= 0 || marker <= 0 || marker + |TAG| > at then None
    else
      var token := address[marker + |TAG|..at];
      var baseAddress := address[..marker] + "@" + address[at + 1..];
      if !IsHexToken(token) || !IsValidReplyToBaseAddress(baseAddress) then None
      else Some(Candidate(Hyphenate(token), baseAddress))
  }

  function TokenOf(rawAddress: string, base: Mailbox): Option<string> {
    TokenIn(Normalize(rawAddress), base)
  }

  function TokenIn(address: string, base: Mailbox): Option<string> {
    var at := LastIndexOf(address, "@", |address|);
    if at <= 0 || address[at + 1..] != base.domain then None
    else
      var local := address[..at];
      var prefix := base.local + TAG;
      if !(prefix <= local) then None
      else
        var token := local[|prefix|..];
        if IsHexToken(token) then Some(Hyphenate(token)) else None
  }

  // --- Lists of addresses, as an insertion-ordered Map or Set keeps them ----

  function Candidates(addresses: seq<string>): seq<Candidate> {
    if addresses == [] then []
    else AddNew(Candidates(addresses[..|addresses| - 1]), CandidateOf(addresses[|addresses| - 1]))
  }

  function Tokens(addresses: seq<string>, base: Mailbox): seq<string> {
    if addresses == [] then []
    else AddNew(Tokens(addresses[..|addresses| - 1], base), TokenOf(addresses[|addresses| - 1], base))
  }

  /** What each address yields. */
  function CandidatesOf(addresses: seq<string>): (results: seq<Option<Candidate>>)
    ensures |results| == |addresses| && forall i | 0 <= i < |addresses| :: results[i] == CandidateOf(addresses[i])
  {
    seq(|addresses|, i requires 0 <= i < |addresses| => CandidateOf(addresses[i]))
  }

  function TokensOf(addresses: seq<string>, base: Mailbox): (results: seq<Option<string>>)
    ensures |results| == |addresses| && forall i | 0 <= i < |addresses| :: results[i] == TokenOf(addresses[i], base)
  {
    seq(|addresses|, i requires 0 <= i < |addresses| => TokenOf(addresses[i], base))
  }

  /** The candidates are those that some address yields, each once, in order of first occurrence. */
  lemma {:induction false} CandidatesListOnce(addresses: seq<string>)
    ensures ListsOnce(CandidatesOf(addresses), Candidates(addresses))
  {
    hide CandidateOf;
    if addresses != [] {
      var before, last := addresses[..|addresses| - 1], addresses[|addresses| - 1];
      CandidatesListOnce(before);
      AddNewLists(CandidatesOf(before), Candidates(before), CandidateOf(last));
      assert CandidatesOf(addresses) == CandidatesOf(before) + [CandidateOf(last)];
    }
  }

  lemma {:induction false} TokensListOnce(addresses: seq<string>, base: Mailbox)
    ensures ListsOnce(TokensOf(addresses, base), Tokens(addresses, base))
  {
    hide TokenOf;
    if addresses != [] {
      var before, last := addresses[..|addresses| - 1], addresses[|addresses| - 1];
      TokensListOnce(before, base);
      AddNewLists(TokensOf(before, base), Tokens(before, base), TokenOf(last, base));
      assert TokensOf(addresses, base) == TokensOf(before, base) + [TokenOf(last, base)];
    }
  }

  method ExtractRoutingCandidates(addresses: seq<string>) returns (candidates: seq<Candidate>)
    ensures candidates == Candidates(addresses)
  {
    candidates := [];
    for i := 0 to |addresses|
      invariant candidates == Candidates(addresses[..i])
    {
      assert addresses[..i + 1][..i] == addresses[..i];
      var candidate := CandidateOf(addresses[i]);
      if candidate.Some? && candidate.value !in candidates {
        candidates := candidates + [candidate.value];
      }
    }
    assert addresses[..|addresses|] == addresses;
  }

  method ExtractRoutingTokens(addresses: seq<string>, baseAddress: string) returns (tokens: Option<seq<string>>)
    ensures tokens.None? <==> !IsValidReplyToBaseAddress(baseAddress)
    ensures tokens.Some? ==> tokens.value == Tokens(addresses, ParseBaseMailbox(baseAddress).value)
  {
    var base := ParseBaseMailbox(baseAddress);
    if base.None? {
      return None;
    }
    var found := [];
    for i := 0 to |addresses|
      invariant found == Tokens(addresses[..i], base.value)
    {
      assert addresses[..i + 1][..i] == addresses[..i];
      var token := TokenOf(addresses[i], base.value);
      if token.Some? && token.value !in found {
        found := found + [token.value];
      }
    }
    assert addresses[..|addresses|] == addresses;
    tokens := Some(found);
  }

  // --- What a parsed base mailbox looks like ---------------------------------

  predicate Absent(c: char, s: string, from: int, to: int)
    requires 0 <= from <= to <= |s|
  {
    forall j | from <= j < to :: s[j] != c
  }

  /** `at` is the position of the last `@`. */
  predicate LastAt(s: string, at: int) {
    0 <= at < |s| && s[at] == '@' && Absent('@', s, at + 1, |s|)
  }

  lemma OneCharacter(s: string, i: int)
    ensures OccursAt(s, "@", i) <==> 0 <= i < |s| && s[i] == '@'
  {
    if 0 <= i < |s| {
      assert "@"[0] == '@' && s[i + 0] == s[i];
    }
  }

  lemma LastAtIs(s: string, at: int)
    requires LastAt(s, at)
    ensures LastIndexOf(s, "@", |s|) == at
  {
    forall j ensures OccursAt(s, "@", j) <==> 0 <= j < |s| && s[j] == '@' {
      OneCharacter(s, j);
    }
    LastIndexIs(s, "@", |s|, at);
  }

  lemma LastAtFound(s: string)
    ensures var at := LastIndexOf(s, "@", |s|); at >= 0 ==> LastAt(s, at)
  {
    forall j ensures OccursAt(s, "@", j) <==> 0 <= j < |s| && s[j] == '@' {
      OneCharacter(s, j);
    }
  }

  /** A mailbox that can be parsed back from its own text. */
  predicate Canonical(m: Mailbox) {
    && ValidMailbox(m)
    && IsNormal(Format(m))
    && LastAt(Format(m), |m.local|)
    && |m.domain| > 0
    && '<' !in Format(m) && '>' !in Format(m)
  }

  lemma ParsedIsCanonical(address: string)
    requires ParseBaseMailbox(address).Some?
    ensures Canonical(ParseBaseMailbox(address).value)
    ensures Format(ParseBaseMailbox(address).value) == Normalize(address)
  {
    hide ValidMailbox;
    var s := Normalize(address);
    var at := LastIndexOf(s, "@", |s|);
    NormalizeYieldsNormal(address);
    LastAtFound(s);
    assert s == s[..at] + "@" + s[at + 1..];
  }

  lemma NoPlusInLocal(local: string)
    requires ValidLocal(local)
    ensures '+' !in local
  {
    assert !IsLocalChar('+');
  }

  lemma CanonicalParses(m: Mailbox)
    requires Canonical(m)
    ensures ParseBaseMailbox(Format(m)) == Some(m)
  {
    var s := Format(m);
    NormalIsFixed(s);
    LastAtIs(s, |m.local|);
    NoPlusInLocal(m.local);
    assert s[..|m.local|] == m.local && s[|m.local| + 1..] == m.domain;
  }

  // --- The shape of a printed address ----------------------------------------

  lemma NoTagWithoutPlus(s: string, from: int, to: int)
    requires 0 <= from <= to < |s|
    requires Absent('+', s, from + 1, to + 1)
    ensures forall j | from < j <= to :: !OccursAt(s, TAG, j)
  {
    forall j | from < j <= to ensures !OccursAt(s, TAG, j) {
      assert s[j] != '+' == TAG[0];
    }
  }

  /** In `local+c_token@domain` the last `@` and the last `+c_` before it are where the printer put them. */
  lemma PrintedMarks(m: Mailbox, token: string)
    requires Canonical(m) && IsHexToken(token)
    ensures var s := Print(m, token);
            && LastIndexOf(s, "@", |s|) == |m.local| + |TAG| + TOKEN_LENGTH
            && LastIndexOf(s, TAG, |m.local| + |TAG| + TOKEN_LENGTH) == |m.local|
  {
    var s := Print(m, token);
    var at := |m.local| + |TAG| + TOKEN_LENGTH;
    forall j | at < j < |s| ensures s[j] != '@' {
      assert s[j] == Format(m)[j - at + |m.local|];
    }
    LastAtIs(s, at);
    forall j | |m.local| < j < at + 1 ensures s[j] != '+' {
      if |m.local| + |TAG| <= j < at {
        assert s[j] == token[j - |m.local| - |TAG|];
      }
    }
    NoTagWithoutPlus(s, |m.local|, at);
    LastIndexIs(s, TAG, at, |m.local|);
  }

  lemma PrintedIsNormal(m: Mailbox, token: string)
    requires Canonical(m) && IsHexToken(token)
    ensures Normalize(Print(m, token)) == Print(m, token)
  {
    var s := Print(m, token);
    var f := Format(m);
    var tail := |m.local| + |TAG| + TOKEN_LENGTH;
    forall i | 0 <= i < |s| ensures LowerChar(s[i]) == s[i] {
      if i < |m.local| {
        assert s[i] == f[i];
      } else if i < |m.local| + |TAG| {
        assert s[i] == TAG[i - |m.local|];
      } else if i < tail {
        assert IsHex(token[i - |m.local| - |TAG|]);
      } else {
        assert s[i] == f[i - tail + |m.local|];
      }
    }
    assert s[0] == f[0] && s[|s| - 1] == f[|f| - 1];
    NormalIsFixed(s);
  }

  // --- Which addresses are bases, and what is printed ---------------------------

  lemma LocalCharsAre()
    ensures forall c :: IsLocalChar(c) <==> 'a' <= c <= 'z' || '0' <= c <= '9' || c in ".!#$%&'*/=?^_`{|}~-"
  {
    forall c | IsLocalChar(c) ensures 'a' <= c <= 'z' || '0' <= c <= '9' || c in ".!#$%&'*/=?^_`{|}~-" {
      var s := ".!#$%&'*/=?^_`{|}~-";
      assert s[0] == '.' && s[1] == '!' && s[2] == '#' && s[3] == '$' && s[4] == '%' && s[5] == '&' && s[6] == '\'' && s[7] == '*' && s[8] == '/'
          && s[9] == '=' && s[10] == '?' && s[11] == '^' && s[12] == '_' && s[13] == '`' && s[14] == '{' && s[15] == '|' && s[16] == '}' && s[17] == '~'
          && s[18] == '-';
    }
  }

  lemma NoSuchLocalChars()
    ensures !IsLocalChar('<') && !IsLocalChar('>') && !IsLocalChar('+') && !IsLocalChar('@')
  {
  }

  /** The dots, the ends and the length of the part before the at sign. */
  ghost predicate FitsLocal(local: string) {
    && 1 <= |local| <= 29 && (forall i | 0 <= i < |local| :: IsLocalChar(local[i]))
    && local[0] != '.' && local[|local| - 1] != '.' && forall i | 0 < i < |local| :: !(local[i - 1] == '.' && local[i] == '.')
  }

  ghost predicate FitsLabel(part: string) {
    && 1 <= |part| <= 63
    && (forall i | 0 <= i < |part| :: 'a' <= part[i] <= 'z' || '0' <= part[i] <= '9' || part[i] == '-')
    && part[0] != '-' && part[|part| - 1] != '-'
  }

  ghost predicate IsBaseOf(address: string, local: string, labels: seq<string>) {
    && |labels| >= 2 && Normalize(address) == local + "@" + Join(labels, '.')
    && FitsLocal(local) && (forall i | 0 <= i < |labels| :: FitsLabel(labels[i]))
    && |local| + |Join(labels, '.')| <= 218
  }

  lemma JoinOfLabels(labels: seq<string>)
    requires |labels| > 0 && forall i | 0 <= i < |labels| :: FitsLabel(labels[i])
    ensures forall i | 0 <= i < |Join(labels, '.')| ::
              var c := Join(labels, '.')[i]; c == '.' || c == '-' || 'a' <= c <= 'z' || '0' <= c <= '9'
    ensures Join(labels, '.') != []
  {
    assert FitsLabel(labels[0]);
    if |labels| > 1 {
      JoinOfLabels(labels[1..]);
    }
  }

  lemma ValidIsFit(m: Mailbox)
    ensures ValidMailbox(m) <==>
              && FitsLocal(m.local) && |Split(m.domain, '.')| >= 2 && |m.local| + |m.domain| <= 218
              && forall i | 0 <= i < |Split(m.domain, '.')| :: FitsLabel(Split(m.domain, '.')[i])
  {
    var labels := Split(m.domain, '.');
    forall i | 0 <= i < |labels| ensures IsLabel(labels[i]) <==> FitsLabel(labels[i]) {
    }
    assert ValidLocal(m.local) && |m.local| <= 29 <==> FitsLocal(m.local) by {
      if FitsLocal(m.local) {
        forall i, j | 0 <= i < |m.local| && 0 <= j < |m.local| && j == i + 1 ensures m.local[i] == '.' ==> m.local[j] != '.' {
        }
      }
    }
  }

  /** A base address has, between the outer white space and in lower case, a local part of at most 29 permitted characters
      without a leading, trailing or double dot, and a domain of at least two labels, 218 characters together. */
  lemma BaseIsValidIff(address: string)
    ensures IsValidReplyToBaseAddress(address) <==> exists local, labels :: IsBaseOf(address, local, labels)
  {
    hide Normalize, Join, Split, FitsLocal, FitsLabel, ValidMailbox;
    if IsValidReplyToBaseAddress(address) {
      var m := ParseBaseMailbox(address).value;
      ParsedIsCanonical(address);
      ValidIsFit(m);
      JoinUndoesSplit(m.domain, '.');
      assert IsBaseOf(address, m.local, Split(m.domain, '.'));
    }
    if local, labels :| IsBaseOf(address, local, labels) {
      BaseParses(address, local, labels);
    }
  }

  lemma BaseParses(address: string, local: string, labels: seq<string>)
    requires IsBaseOf(address, local, labels)
    ensures ParseBaseMailbox(address) == Some(Mailbox(local, Join(labels, '.')))
  {
    hide Normalize, Join, Split, ValidMailbox, IsLocalChar;
    var s, domain := Normalize(address), Join(labels, '.');
    JoinOfLabels(labels);
    forall i | 0 <= i < |labels| ensures '.' !in labels[i] {
      assert FitsLabel(labels[i]);
    }
    SplitUndoesJoin(labels, '.');
    ValidIsFit(Mailbox(local, domain));
    hide FitsLabel;
    MarksOfBase(s, local, domain);
  }

  lemma MarksOfBase(s: string, local: string, domain: string)
    requires s == local + "@" + domain && FitsLocal(local) && domain != []
    requires forall i | 0 <= i < |domain| :: var c := domain[i]; c == '.' || c == '-' || 'a' <= c <= 'z' || '0' <= c <= '9'
    ensures LastIndexOf(s, "@", |s|) == |local| && s[..|local|] == local && s[|local| + 1..] == domain
    ensures '<' !in s && '>' !in s && '+' !in local
  {
    hide IsLocalChar;
    NoSuchLocalChars();
    forall j | |local| < j < |s| ensures s[j] != '@' {
      assert s[j] == domain[j - |local| - 1];
    }
    LastAtIs(s, |local|);
    forall i | 0 <= i < |s| ensures s[i] != '<' && s[i] != '>' {
      assert i > |local| ==> s[i] == domain[i - |local| - 1];
    }
  }

  /** What is printed for a valid base and a token of 32 hexadecimal digits, hyphens aside, and only then: the base with
      the tag `+c_` and those digits before the at sign. */
  lemma BuiltAddressIs(baseAddress: string, routingToken: string) returns (local: string, token: string, domain: string)
    ensures token == Lower(StripDashes(routingToken))
    ensures BuildConversationReplyTo(baseAddress, routingToken).Some?
       <==> IsValidReplyToBaseAddress(baseAddress) && |token| == 32 && forall i | 0 <= i < 32 :: '0' <= token[i] <= '9' || 'a' <= token[i] <= 'f'
    ensures BuildConversationReplyTo(baseAddress, routingToken).Some? ==>
              && BuildConversationReplyTo(baseAddress, routingToken) == Some(local + "+c_" + token + "@" + domain)
              && Normalize(baseAddress) == local + "@" + domain
  {
    local, token, domain := [], CompactToken(routingToken), [];
    if IsValidReplyToBaseAddress(baseAddress) {
      var m := ParseBaseMailbox(baseAddress).value;
      ParsedIsCanonical(baseAddress);
      local, domain := m.local, m.domain;
    }
  }

  /** The stored form of a token: groups of 8, 4, 4, 4 and 12 digits. */
  lemma HyphenatedIs(token: string)
    requires IsHexToken(token)
    ensures var h := Hyphenate(token);
            && |h| == 36 && h[8] == h[13] == h[18] == h[23] == '-'
            && h[..8] == token[..8] && h[9..13] == token[8..12] && h[14..18] == token[12..16] && h[19..23] == token[16..20] && h[24..] == token[20..]
  {
  }

  // --- Main results ------------------------------------------------------------

  lemma CandidateOfPrinted(m: Mailbox, token: string)
    requires Canonical(m) && IsHexToken(token)
    ensures CandidateOf(Print(m, token)) == Some(Candidate(Hyphenate(token), Format(m)))
  {
    var s := Print(m, token);
    var at := |m.local| + |TAG| + TOKEN_LENGTH;
    PrintedIsNormal(m, token);
    PrintedMarks(m, token);
    assert s[|m.local| + |TAG|..at] == token;
    assert s[..|m.local|] == m.local && s[at + 1..] == m.domain;
    CanonicalParses(m);
  }

  /** Reading back a built address gives exactly its normalized base and its
      token in canonical UUID form. */
  lemma ExtractUndoesBuild(baseAddress: string, routingToken: string)
    requires BuildConversationReplyTo(baseAddress, routingToken).Some?
    ensures Candidates([BuildConversationReplyTo(baseAddress, routingToken).value])
         == [Candidate(Hyphenate(CompactToken(routingToken)), Normalize(baseAddress))]
  {
    hide CandidateOf, Canonical, Print;
    var m := ParseBaseMailbox(baseAddress).value;
    ParsedIsCanonical(baseAddress);
    CandidateOfPrinted(m, CompactToken(routingToken));
    var xs := [BuildConversationReplyTo(baseAddress, routingToken).value];
    assert xs[..0] == [];
  }

  lemma CompactUndoesHyphenate(token: string)
    requires IsHexToken(token)
    ensures CompactToken(Hyphenate(token)) == token
  {
    var parts := [token[..8], token[8..12], token[12..16], token[16..20], token[20..]];
    assert Hyphenate(token) == parts[0] + ("-" + (parts[1] + ("-" + (parts[2] + ("-" + (parts[3] + ("-" + parts[4])))))));
    StripHexPrefix(parts[4], []);
    StripHexPrefix(parts[3], "-" + parts[4]);
    StripHexPrefix(parts[2], "-" + (parts[3] + ("-" + parts[4])));
    StripHexPrefix(parts[1], "-" + (parts[2] + ("-" + (parts[3] + ("-" + parts[4])))));
    StripHexPrefix(parts[0], "-" + (parts[1] + ("-" + (parts[2] + ("-" + (parts[3] + ("-" + parts[4])))))));
    assert parts[4] + [] == parts[4];
    assert StripDashes(Hyphenate(token)) == parts[0] + (parts[1] + (parts[2] + (parts[3] + parts[4]))) == token;
    LowerFixes(token);
  }

  lemma {:induction false} StripHexPrefix(hex: string, rest: string)
    requires forall i | 0 <= i < |hex| :: IsHex(hex[i])
    ensures StripDashes(hex + rest) == hex + StripDashes(rest)
    ensures StripDashes("-" + rest) == StripDashes(rest)
  {
    assert ("-" + rest)[1..] == rest;
    if hex == [] {
      assert hex + rest == rest;
    } else {
      StripHexPrefix(hex[1..], rest);
      assert (hex + rest)[1..] == hex[1..] + rest;
      assert IsHex(hex[0]);
    }
  }

  /** `b` is a normalized tagged address `s` with the tag between `marker` and `at` cut out. */
  predicate IsCut(s: string, at: int, marker: int, b: string) {
    && IsNormal(s) && 0 < marker < at && LastAt(s, at)
    && b == s[..marker] + "@" + s[at + 1..]
  }

  lemma CutIsNormal(s: string, at: int, marker: int, b: string)
    requires IsCut(s, at, marker, b) && at + 1 < |s|
    ensures IsNormal(b) && LastAt(b, marker)
  {
    forall i | 0 <= i < |b| ensures b[i] == if i < marker then s[i] else s[i - marker + at] {
    }
    forall i | 0 <= i < |b| ensures LowerChar(b[i]) == b[i] {
      assert b[i] == if i < marker then s[i] else s[i - marker + at];
    }
    forall j | marker < j < |b| ensures b[j] != '@' {
      assert b[j] == s[j - marker + at];
    }
  }

  lemma ParseOfNormal(b: string, at: int)
    requires IsNormal(b) && LastAt(b, at)
    requires ParseBaseMailbox(b).Some?
    ensures ParseBaseMailbox(b).value == Mailbox(b[..at], b[at + 1..])
  {
    NormalIsFixed(b);
    LastAtIs(b, at);
  }

  lemma ParsedHasDomain(s: string, at: int, marker: int, b: string)
    requires IsCut(s, at, marker, b)
    requires ParseBaseMailbox(b).Some?
    ensures at + 1 < |s|
  {
    if at + 1 == |s| {
      assert b == s[..marker] + "@";
      forall i | 0 <= i < |b| ensures LowerChar(b[i]) == b[i] {
        assert b[i] == if i < marker then s[i] else '@';
      }
      assert IsNormal(b);
      NormalIsFixed(b);
      LastAtIs(b, marker);
      assert false;
    }
  }

  /** The base cut out of a normalized tagged address parses to the two pieces it was cut from. */
  lemma CandidateBase(s: string, at: int, marker: int, b: string)
    requires IsCut(s, at, marker, b)
    requires ParseBaseMailbox(b).Some?
    ensures ParseBaseMailbox(b).value == Mailbox(s[..marker], s[at + 1..])
    ensures Normalize(b) == b
  {
    hide ParseBaseMailbox, IsNormal;
    ParsedHasDomain(s, at, marker, b);
    CutIsNormal(s, at, marker, b);
    NormalIsFixed(b);
    ParseOfNormal(b, marker);
    assert b[..marker] == s[..marker] && b[marker + 1..] == s[at + 1..];
  }

  /** What is known of a normalized address that yields a candidate. */
  lemma CandidateShape(s: string) returns (m: Mailbox, token: string)
    requires IsNormal(s) && CandidateIn(s).Some?
    ensures IsHexToken(token)
    ensures CandidateIn(s).value == Candidate(Hyphenate(token), Format(m))
    ensures ParseBaseMailbox(Format(m)) == Some(m)
    ensures s == Print(m, token)
  {
    hide ParseBaseMailbox, Hyphenate, Normalize, IsHexToken, IsNormal;
    var at := LastIndexOf(s, "@", |s|);
    var marker := LastIndexOf(s, TAG, at);
    LastAtFound(s);
    token := s[marker + |TAG|..at];
    m := Mailbox(s[..marker], s[at + 1..]);
    CandidateBase(s, at, marker, Format(m));
    assert s[marker..marker + |TAG|] == TAG;
    assert s == s[..marker] + s[marker..marker + |TAG|] + token + s[at..at + 1] + s[at + 1..];
  }

  /** Whatever address yields a candidate is, once trimmed and lower-cased, the
      address that the printer builds from that candidate. */
  lemma BuildUndoesExtract(rawAddress: string)
    requires CandidateOf(rawAddress).Some?
    ensures var c := CandidateOf(rawAddress).value;
            BuildConversationReplyTo(c.baseAddress, c.routingToken) == Some(Normalize(rawAddress))
  {
    NormalizeYieldsNormal(rawAddress);
    var m, token := CandidateShape(Normalize(rawAddress));
    CompactUndoesHyphenate(token);
  }

  /** Every built address obeys the limits of sections 4.5.3.1.1 and 4.5.3.1.3 of RFC 5321. */
  lemma BuiltAddressFits(baseAddress: string, routingToken: string)
    requires BuildConversationReplyTo(baseAddress, routingToken).Some?
    ensures var s := BuildConversationReplyTo(baseAddress, routingToken).value;
            var at := LastIndexOf(s, "@", |s|);
            && 0 < at <= 64
            && |s| <= 254
            && |s| - at - 1 <= 253
  {
    ParsedIsCanonical(baseAddress);
    PrintedMarks(ParseBaseMailbox(baseAddress).value, CompactToken(routingToken));
  }

  lemma TokenShape(s: string, m: Mailbox) returns (token: string)
    requires TokenIn(s, m).Some?
    ensures IsHexToken(token) && TokenIn(s, m) == Some(Hyphenate(token)) && s == Print(m, token)
  {
    hide Hyphenate, IsHexToken;
    var at := LastIndexOf(s, "@", |s|);
    LastAtFound(s);
    token := s[..at][|m.local + TAG|..];
    assert s[..at] == m.local + TAG + token;
    assert s == s[..at] + s[at..at + 1] + s[at + 1..];
  }

  lemma TokenInPrinted(m: Mailbox, token: string)
    requires Canonical(m) && IsHexToken(token)
    ensures TokenIn(Print(m, token), m) == Some(Hyphenate(token))
  {
    hide Hyphenate, Canonical;
    var s := Print(m, token);
    PrintedMarks(m, token);
    var at := |m.local| + |TAG| + |token|;
    assert s[at + 1..] == m.domain;
    assert s[..at] == m.local + TAG + token;
    assert s[..at][|m.local + TAG|..] == token;
  }

  /** For one address: the prefix match and the last-marker search read the same token. */
  lemma ExtractorsAgreeOnOne(rawAddress: string, baseAddress: string)
    requires IsValidReplyToBaseAddress(baseAddress)
    ensures var t := TokenOf(rawAddress, ParseBaseMailbox(baseAddress).value);
            var c := CandidateOf(rawAddress);
            && (t.Some? <==> c.Some? && c.value.baseAddress == Normalize(baseAddress))
            && (t.Some? ==> c.value.routingToken == t.value)
  {
    hide ParseBaseMailbox, Hyphenate, Normalize, IsHexToken, TokenIn, CandidateIn;
    var m := ParseBaseMailbox(baseAddress).value;
    ParsedIsCanonical(baseAddress);
    var s := Normalize(rawAddress);
    NormalizeYieldsNormal(rawAddress);
    if TokenIn(s, m).Some? {
      var token := TokenShape(s, m);
      NormalIsFixed(s);
      CandidateOfPrinted(m, token);
    }
    if CandidateIn(s).Some? && CandidateIn(s).value.baseAddress == Normalize(baseAddress) {
      var m', token := CandidateShape(s);
      CanonicalParses(m);
      TokenInPrinted(m, token);
    }
  }

  /** `candidates.filter(c => c.baseAddress === base).map(c => c.routingToken)`. */
  function TokensFor(candidates: seq<Candidate>, base: string): seq<string> {
    if candidates == [] then []
    else
      var init := TokensFor(candidates[..|candidates| - 1], base);
      var c := candidates[|candidates| - 1];
      if c.baseAddress == base then init + [c.routingToken] else init
  }

  lemma {:induction false} TokensForMember(candidates: seq<Candidate>, base: string, token: string)
    ensures token in TokensFor(candidates, base) <==> Candidate(token, base) in candidates
  {
    if candidates != [] {
      var init := candidates[..|candidates| - 1];
      TokensForMember(init, base, token);
      assert candidates == init + [candidates[|candidates| - 1]];
    }
  }

  lemma AgreeStep(cs: seq<Candidate>, c: Option<Candidate>, t: Option<string>, base: string)
    requires t.Some? <==> c.Some? && c.value.baseAddress == base
    requires t.Some? ==> c.value.routingToken == t.value
    requires NoDuplicates(cs) && NoDuplicates(TokensFor(cs, base))
    ensures AddNew(TokensFor(cs, base), t) == TokensFor(AddNew(cs, c), base)
    ensures NoDuplicates(AddNew(cs, c)) && NoDuplicates(AddNew(TokensFor(cs, base), t))
  {
    if c.Some? {
      TokensForMember(cs, base, c.value.routingToken);
      assert (cs + [c.value])[..|cs|] == cs;
    }
  }

  /** Both extractors return the same tokens in the same order, and neither repeats one. */
  lemma {:induction false} ExtractorsAgree(addresses: seq<string>, baseAddress: string)
    requires IsValidReplyToBaseAddress(baseAddress)
    ensures Tokens(addresses, ParseBaseMailbox(baseAddress).value)
         == TokensFor(Candidates(addresses), Normalize(baseAddress))
    ensures NoDuplicates(Tokens(addresses, ParseBaseMailbox(baseAddress).value))
    ensures NoDuplicates(Candidates(addresses))
  {
    if addresses != [] {
      var init := addresses[..|addresses| - 1];
      var last := addresses[|addresses| - 1];
      ExtractorsAgree(init, baseAddress);
      ExtractorsAgreeOnOne(last, baseAddress);
      AgreeStep(Candidates(init), CandidateOf(last), TokenOf(last, ParseBaseMailbox(baseAddress).value),
                Normalize(baseAddress));
    }
  }
}
