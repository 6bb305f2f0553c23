/** The shipped credential patterns, as they read ASCII text, and what the chunked scan
    makes of them. */
module Credentials {
  import opened Wrappers
  import opened Scanner

  // ------------------------------------------------------------------------- patterns

  /** Regular expressions as far as the patterns need them: texts with or without letter
      case, runs of a class with bounds, word boundaries, sequence and choice. */
  datatype Regex =
    | Text(text: string, fold: bool)
    | Run(of: set<char>, min: nat, max: Option<nat>)
    | Boundary
    | Then(first: Regex, next: Regex)
    | Or(left: Regex, right: Regex)

  const LOWER := set c: char | 'a' <= c <= 'z'
  const UPPER := set c: char | 'A' <= c <= 'Z'
  const DIGIT := set c: char | '0' <= c <= '9'
  const ALNUM := LOWER + UPPER + DIGIT

  predicate IsWord(s: string, i: int) { 0 <= i < |s| && s[i] in ALNUM + {'_'} }

  function Lower(c: char): char { if 'A' <= c <= 'Z' then (c as int + 32) as char else c }

  predicate Same(a: char, b: char, fold: bool) { a == b || (fold && Lower(a) == Lower(b)) }

  /** The expression matches s from i to j. */
  predicate Matches(r: Regex, s: string, i: nat, j: nat)
    requires i <= j <= |s|
  {
    match r
    case Text(t, fold) => j - i == |t| && forall k | 0 <= k < |t| :: Same(t[k], s[i + k], fold)
    case Run(of, min, max) => min <= j - i && (max.Some? ==> j - i <= max.value) && forall k | i <= k < j :: s[k] in of
    case Boundary => i == j && IsWord(s, i - 1) != IsWord(s, i)
    case Then(a, b) => exists m | i <= m <= j :: Matches(a, s, i, m) && Matches(b, s, m, j)
    case Or(a, b) => Matches(a, s, i, j) || Matches(b, s, i, j)
  }

  function Word(text: string): Regex { Text(text, false) }
  function AnyCase(text: string): Regex { Text(text, true) }
  function AtLeast(n: nat, of: set<char>): Regex { Run(of, n, None) }
  function Exactly(n: nat, of: set<char>): Regex { Run(of, n, Some(n)) }
  function Maybe(of: set<char>): Regex { Run(of, 0, Some(1)) }

  const DASHED := ALNUM + {'_', '-'}
  const SECRET := ALNUM + {'.', '_', '~', '+', '/', '=', '-'}
  const BLANK := {' ', '\t'}

  /** A word that starts with a prefix and goes on with a run of a class. */
  function Token(prefix: Regex, rest: Regex): Regex { Then(Boundary, Then(prefix, Then(rest, Boundary))) }

  const OPENAI := Token(AnyCase("sk-"), AtLeast(16, DASHED))
  const AWS := Token(Word("AKIA"), Exactly(16, UPPER + DIGIT))
  const BEARER := Then(Boundary, Then(AnyCase("bearer"), Then(AtLeast(1, BLANK), AtLeast(12, SECRET))))
  const GITHUB := Token(Then(Word("gh"), Then(Exactly(1, {'p', 'o', 'u', 's', 'r'}), Word("_"))), AtLeast(20, ALNUM))
  const GITHUB_FINE := Token(Word("github_pat_"), AtLeast(20, ALNUM + {'_'}))
  const GITLAB := Token(Word("glpat-"), AtLeast(20, DASHED))
  const SLACK := Token(Then(Word("xox"), Then(Exactly(1, {'b', 'a', 'p', 'r', 's'}), Word("-"))), AtLeast(10, ALNUM + {'-'}))
  const GOOGLE_KEY := Token(Word("AIza"), Exactly(35, DASHED))
  const GOOGLE_SECRET := Token(Word("GOCSPX-"), AtLeast(20, DASHED))
  const STRIPE := Token(Word("sk_live_"), AtLeast(16, ALNUM))
  const NPM := Token(Word("npm_"), AtLeast(20, ALNUM))
  const ASSIGNMENT := Then(Boundary, Then(NAMES, Then(Boundary, GIVEN)))
  const NAMES := Or(Or(TOKENS, Pair("api", "key")), PASSWORDS)
  const TOKENS := Or(Or(Pair("refresh", "token"), Pair("client", "secret")), Pair("access", "token"))
  const PASSWORDS := Or(AnyCase("password"), AnyCase("passwd"))
  const GIVEN :=
    Then(AtLeast(0, BLANK), Then(Exactly(1, {':', '='}), Then(AtLeast(0, BLANK), Then(Maybe({'"', '\''}), AtLeast(8, SECRET)))))
  const PRIVATE_KEY :=
    Then(Word("-----BEGIN "), Then(Or(Word(""), Or(Word("RSA "), Or(Word("EC "), Word("OPENSSH ")))), Word("PRIVATE KEY-----")))

  function Pair(a: string, b: string): Regex { Then(AnyCase(a), Then(Maybe({'_', '-'}), AnyCase(b))) }

  predicate Found(r: Regex, s: string) { exists i, j | 0 <= i < j <= |s| :: Matches(r, s, i, j) }

  /** The shipped detector: some pattern matches somewhere. */
  predicate Suspicious(s: string) {
    Found(OPENAI, s) || Found(AWS, s) || Found(BEARER, s) || Found(GITHUB, s) || Found(GITHUB_FINE, s) ||
    Found(GITLAB, s) || Found(SLACK, s) || Found(GOOGLE_KEY, s) || Found(GOOGLE_SECRET, s) || Found(STRIPE, s) ||
    Found(NPM, s) || Found(ASSIGNMENT, s) || Found(PRIVATE_KEY, s)
  }

  const SHIPPED: Detector := s => Suspicious(s)

  // ------------------------------------------------------ texts without what a match needs

  predicate Over(s: string, letters: set<char>) { forall i | 0 <= i < |s| :: s[i] in letters }

  predicate Foreign(letters: set<char>, c: char, fold: bool) { forall x <- letters :: !Same(c, x, fold) }

  /** The text needs a character that none of the letters is. */
  predicate Lacks(letters: set<char>, text: string, fold: bool) {
    exists k | 0 <= k < |text| :: Foreign(letters, text[k], fold)
  }

  /** No match can be written with the letters alone. */
  predicate Blocked(r: Regex, letters: set<char>) {
    match r
    case Text(t, fold) => Lacks(letters, t, fold)
    case Run(of, min, _) => min > 0 && of !! letters
    case Boundary => false
    case Then(a, b) => Blocked(a, letters) || Blocked(b, letters)
    case Or(a, b) => Blocked(a, letters) && Blocked(b, letters)
  }

  lemma {:induction false} BlockedNeverMatches(r: Regex, letters: set<char>, s: string, i: nat, j: nat)
    requires Blocked(r, letters) && Over(s, letters) && i <= j <= |s|
    ensures !Matches(r, s, i, j)
  {
    match r {
      case Text(t, fold) =>
        if j - i == |t| {
          var k :| 0 <= k < |t| && Foreign(letters, t[k], fold);
          assert s[i + k] in letters && !Same(t[k], s[i + k], fold);
        }
      case Run(of, min, _) => if i < j { assert s[i] in letters; }
      case Boundary =>
      case Then(a, b) =>
        forall m | i <= m <= j ensures !(Matches(a, s, i, m) && Matches(b, s, m, j)) {
          if Blocked(a, letters) {
            BlockedNeverMatches(a, letters, s, i, m);
          } else {
            BlockedNeverMatches(b, letters, s, m, j);
          }
        }
      case Or(a, b) =>
        BlockedNeverMatches(a, letters, s, i, j);
        BlockedNeverMatches(b, letters, s, i, j);
    }
  }

  lemma BlockedNotFound(r: Regex, letters: set<char>, s: string)
    requires Blocked(r, letters) && Over(s, letters)
    ensures !Found(r, s)
  {
    forall i: nat, j: nat | i < j <= |s| ensures !Matches(r, s, i, j) { BlockedNeverMatches(r, letters, s, i, j); }
  }

  lemma LacksAt(letters: set<char>, text: string, fold: bool, k: nat)
    requires k < |text| && Foreign(letters, text[k], fold)
    ensures Lacks(letters, text, fold) && Blocked(Text(text, fold), letters)
  {
  }

  lemma TokenNotFound(prefix: Regex, rest: Regex, letters: set<char>, s: string)
    requires Blocked(prefix, letters) && Over(s, letters)
    ensures !Found(Token(prefix, rest), s)
  {
    BlockedNotFound(Token(prefix, rest), letters, s);
  }

  /** A token whose fixed beginning has a foreign character is not found. */
  lemma WordNotFound(text: string, fold: bool, k: nat, rest: Regex, letters: set<char>, s: string)
    requires k < |text| && Foreign(letters, text[k], fold) && Over(s, letters)
    ensures !Found(Token(Text(text, fold), rest), s)
  {
    LacksAt(letters, text, fold, k);
    TokenNotFound(Text(text, fold), rest, letters, s);
  }

  lemma GithubNotFound(letters: set<char>, s: string)
    requires '_' !in letters && Over(s, letters)
    ensures !Found(GITHUB, s)
  {
    LacksAt(letters, "_", false, 0);
    var kind := Then(Exactly(1, {'p', 'o', 'u', 's', 'r'}), Word("_"));
    assert Blocked(kind, letters);
    TokenNotFound(Then(Word("gh"), kind), AtLeast(20, ALNUM), letters, s);
  }

  lemma PrivateKeyNotFound(letters: set<char>, s: string)
    requires letters !! UPPER && Over(s, letters)
    ensures !Found(PRIVATE_KEY, s)
  {
    LacksAt(letters, "-----BEGIN ", false, 5);
    BlockedNotFound(PRIVATE_KEY, letters, s);
  }

  /** Without capitals and underscores most patterns are out of reach. */
  lemma PlainNotFound(letters: set<char>, s: string)
    requires letters !! UPPER && '_' !in letters && Over(s, letters)
    ensures Suspicious(s) ==>
              Found(OPENAI, s) || Found(BEARER, s) || Found(GITLAB, s) || Found(SLACK, s) || Found(ASSIGNMENT, s)
  {
    assert 'A' in UPPER && 'G' in UPPER;
    WordNotFound("AKIA", false, 0, Exactly(16, UPPER + DIGIT), letters, s);
    GithubNotFound(letters, s);
    WordNotFound("github_pat_", false, 6, AtLeast(20, ALNUM + {'_'}), letters, s);
    WordNotFound("AIza", false, 0, Exactly(35, DASHED), letters, s);
    WordNotFound("GOCSPX-", false, 0, AtLeast(20, DASHED), letters, s);
    WordNotFound("sk_live_", false, 2, AtLeast(16, ALNUM), letters, s);
    WordNotFound("npm_", false, 3, AtLeast(20, ALNUM), letters, s);
    PrivateKeyNotFound(letters, s);
  }

  lemma BearerNotFound(letters: set<char>, s: string, k: nat)
    requires k < 6 && Foreign(letters, "bearer"[k], true) && Over(s, letters)
    ensures !Found(BEARER, s)
  {
    LacksAt(letters, "bearer", true, k);
    BlockedNotFound(BEARER, letters, s);
  }

  lemma SlackNotFound(letters: set<char>, s: string)
    requires ('o' !in letters || '-' !in letters) && Over(s, letters)
    ensures !Found(SLACK, s)
  {
    var kind := Then(Exactly(1, {'b', 'a', 'p', 'r', 's'}), Word("-"));
    if 'o' !in letters { LacksAt(letters, "xox", false, 1); } else { LacksAt(letters, "-", false, 0); }
    assert Blocked(Then(Word("xox"), kind), letters);
    TokenNotFound(Then(Word("xox"), kind), AtLeast(10, ALNUM + {'-'}), letters, s);
  }

  lemma UnassignedNotFound(letters: set<char>, s: string)
    requires ':' !in letters && '=' !in letters && Over(s, letters)
    ensures !Found(ASSIGNMENT, s)
  {
    assert Blocked(Exactly(1, {':', '='}), letters) && Blocked(GIVEN, letters);
    assert Blocked(Then(Boundary, GIVEN), letters);
    BlockedNotFound(ASSIGNMENT, letters, s);
  }

  // -------------------------------------------------------------------- the false alarm

  function Repeat(c: char, n: nat): string { seq(n, _ => c) }

  const ALARM := {'x', 's', 'k', '-', 'a'}

  lemma OnlyOpenai(s: string)
    requires Over(s, ALARM)
    ensures Suspicious(s) ==> Found(OPENAI, s)
  {
    PlainNotFound(ALARM, s);
    BearerNotFound(ALARM, s, 0);
    WordNotFound("glpat-", false, 0, AtLeast(20, DASHED), ALARM, s);
    SlackNotFound(ALARM, s);
    UnassignedNotFound(ALARM, s);
  }

  lemma SplitThen(a: Regex, b: Regex, s: string, i: nat, j: nat) returns (m: nat)
    requires i <= j <= |s| && Matches(Then(a, b), s, i, j)
    ensures i <= m <= j && Matches(a, s, i, m) && Matches(b, s, m, j)
  {
    m :| i <= m <= j && Matches(a, s, i, m) && Matches(b, s, m, j);
  }

  /** A key starts with its prefix at the beginning of a word. */
  lemma OpenaiStarts(s: string, i: nat, j: nat)
    requires i <= j <= |s| && Matches(OPENAI, s, i, j)
    ensures IsWord(s, i - 1) != IsWord(s, i) && i + 2 < |s| && Same('s', s[i], true) && Same('-', s[i + 2], true)
  {
    var rest := Then(AtLeast(16, DASHED), Boundary);
    var m := SplitThen(Boundary, Then(AnyCase("sk-"), rest), s, i, j);
    var n := SplitThen(AnyCase("sk-"), rest, s, m, j);
    assert "sk-"[0] == 's' && "sk-"[2] == '-';
    assert Same("sk-"[0], s[m + 0], true) && Same("sk-"[2], s[m + 2], true);
  }

  /** A key glued to a letter before it is none: the word starts too early. */
  lemma GluedIsClean(n: nat)
    ensures !Suspicious("xsk-" + Repeat('a', n))
  {
    var s := "xsk-" + Repeat('a', n);
    assert forall i | 4 <= i < |s| :: s[i] == 'a';
    OnlyOpenai(s);
    assert IsWord(s, 0) && IsWord(s, 1);
    forall i: nat, j: nat | i < j <= |s| ensures !Matches(OPENAI, s, i, j) {
      if Matches(OPENAI, s, i, j) { OpenaiStarts(s, i, j); }
    }
  }

  /** The same key at the start of a window is one. */
  lemma BareIsSuspicious(n: nat)
    requires n >= 16
    ensures Suspicious("sk-" + Repeat('a', n))
  {
    var s := "sk-" + Repeat('a', n);
    var l := |s|;
    assert Matches(Boundary, s, 0, 0) && Matches(Boundary, s, l, l) by { assert IsWord(s, 0) && IsWord(s, l - 1); }
    assert Matches(AnyCase("sk-"), s, 0, 3);
    assert Matches(AtLeast(16, DASHED), s, 3, l);
    assert Matches(Then(AtLeast(16, DASHED), Boundary), s, 3, l);
    assert Matches(Then(AnyCase("sk-"), Then(AtLeast(16, DASHED), Boundary)), s, 0, l);
    assert Matches(OPENAI, s, 0, l);
  }

  /** A clean stream that the scan rejects: the tail cuts the letter off, and what follows
      then looks like a key. */
  lemma FalseAlarm()
    ensures var chunks := ["xsk-" + Repeat('a', 253), "a"];
            !Suspicious(Concat(chunks)) && Scan(SHIPPED, chunks).None?
  {
    var first := "xsk-" + Repeat('a', 253);
    TwoChunks(SHIPPED, first, "a");
    assert first + "a" == "xsk-" + Repeat('a', 254);
    GluedIsClean(254);
    assert Tail(first) + "a" == "sk-" + Repeat('a', 254);
    BareIsSuspicious(254);
  }

  // --------------------------------------------------------------------------- the miss

  const NAME := "password"
  const VALUE := "=abcdefgh"

  /** An assignment with blanks between its name and its value. */
  function Spaced(n: nat): string { NAME + Repeat(' ', n) + VALUE }

  const NAMED := {'p', 'a', 's', 'w', 'o', 'r', 'd', ' '}
  const VALUED := {' ', '=', 'a', 'b', 'c', 'd', 'e', 'f', 'g', 'h'}

  lemma KeyFree(letters: set<char>, s: string)
    requires letters !! UPPER && '_' !in letters && '-' !in letters && Over(s, letters)
    ensures Suspicious(s) ==> Found(BEARER, s) || Found(ASSIGNMENT, s)
  {
    PlainNotFound(letters, s);
    assert "sk-"[2] == '-' && Foreign(letters, '-', true) && Foreign(letters, "glpat-"[5], false);
    WordNotFound("sk-", true, 2, AtLeast(16, DASHED), letters, s);
    WordNotFound("glpat-", false, 5, AtLeast(20, DASHED), letters, s);
    SlackNotFound(letters, s);
  }

  /** A name without a value is no assignment. */
  lemma NameIsClean(s: string)
    requires Over(s, NAMED)
    ensures !Suspicious(s)
  {
    KeyFree(NAMED, s);
    BearerNotFound(NAMED, s, 0);
    UnassignedNotFound(NAMED, s);
  }

  lemma ForeignLower(letters: set<char>, c: char)
    requires letters !! UPPER && 'a' <= c <= 'z' && c !in letters
    ensures Foreign(letters, c, true)
  {
  }

  lemma NameBlocked(name: string, letters: set<char>, k: nat)
    requires k < |name| && letters !! UPPER && 'a' <= name[k] <= 'z' && name[k] !in letters
    ensures Blocked(AnyCase(name), letters)
  {
    ForeignLower(letters, name[k]);
    LacksAt(letters, name, true, k);
  }

  lemma TokensBlocked(letters: set<char>)
    requires letters !! UPPER && 'r' !in letters && 'l' !in letters && 's' !in letters
    ensures Blocked(TOKENS, letters)
  {
    NameBlocked("refresh", letters, 0);
    NameBlocked("client", letters, 1);
    NameBlocked("access", letters, 4);
    assert Blocked(Pair("refresh", "token"), letters) && Blocked(Pair("client", "secret"), letters);
    assert Blocked(Pair("access", "token"), letters);
  }

  /** Every name has a letter among these four. */
  lemma NamesBlocked(letters: set<char>)
    requires letters !! UPPER && 'r' !in letters && 'l' !in letters && 's' !in letters && 'p' !in letters
    ensures Blocked(NAMES, letters)
  {
    TokensBlocked(letters);
    NameBlocked("api", letters, 1);
    NameBlocked("password", letters, 0);
    NameBlocked("passwd", letters, 0);
    assert Blocked(Pair("api", "key"), letters) && Blocked(PASSWORDS, letters);
    assert Blocked(Or(TOKENS, Pair("api", "key")), letters);
  }

  lemma NamelessNotFound(letters: set<char>, s: string)
    requires Blocked(NAMES, letters) && Over(s, letters)
    ensures !Found(ASSIGNMENT, s)
  {
    assert Blocked(Then(NAMES, Then(Boundary, GIVEN)), letters);
    BlockedNotFound(ASSIGNMENT, letters, s);
  }

  /** A value without a name is none either. */
  lemma ValueIsClean(s: string, letters: set<char>)
    requires letters == VALUED && Over(s, letters)
    ensures !Suspicious(s)
  {
    KeyFree(letters, s);
    ForeignLower(letters, 'r');
    assert "bearer"[3] == 'r';
    BearerNotFound(letters, s, 3);
    NamesBlocked(letters);
    NamelessNotFound(letters, s);
  }

  lemma SpacedLetters(n: nat)
    ensures forall i | 0 <= i < 8 + n :: Spaced(n)[i] in NAMED
    ensures forall i | 8 <= i < |Spaced(n)| :: Spaced(n)[i] in VALUED
  {
    var s := Spaced(n);
    assert forall i | 0 <= i < 8 :: s[i] == NAME[i];
    assert forall i | 8 <= i < 8 + n :: s[i] == ' ';
    assert forall i | 8 + n <= i < |s| :: s[i] == VALUE[i - 8 - n];
  }

  /** When the blanks fill the overlap, no window holds both name and value. */
  lemma WindowsClean(n: nat, k: nat)
    requires n >= OVERLAP && 0 < k <= |Spaced(n)|
    ensures !Suspicious(WindowAt(Spaced(n), k))
  {
    var s := Spaced(n);
    var w := WindowAt(s, k);
    SpacedLetters(n);
    if k <= 8 + n {
      assert Over(w, NAMED);
      NameIsClean(w);
    } else {
      assert Over(w, VALUED);
      ValueIsClean(w, VALUED);
    }
  }

  lemma SpacedParts(n: nat)
    requires n > 0
    ensures var s := Spaced(n);
            |s| == 17 + n && (forall i | 0 <= i < 8 :: s[i] == NAME[i]) && (forall i | 8 <= i < 8 + n :: s[i] == ' ') &&
            s[8 + n] == '=' && forall i | 9 + n <= i < |s| :: s[i] in LOWER
  {
    var s := Spaced(n);
    assert forall i | 8 + n <= i < |s| :: s[i] == VALUE[i - 8 - n];
  }

  lemma NameMatches(s: string)
    requires |s| >= 8 && forall i | 0 <= i < 8 :: s[i] == NAME[i]
    ensures Matches(NAMES, s, 0, 8)
  {
    assert Matches(AnyCase(NAME), s, 0, 8);
    assert Matches(PASSWORDS, s, 0, 8);
  }

  lemma JoinThen(a: Regex, b: Regex, s: string, i: nat, m: nat, j: nat)
    requires i <= m <= j <= |s| && Matches(a, s, i, m) && Matches(b, s, m, j)
    ensures Matches(Then(a, b), s, i, j)
  {
  }

  lemma AtBoundary(s: string, i: nat)
    requires i <= |s| && IsWord(s, i - 1) != IsWord(s, i)
    ensures Matches(Boundary, s, i, i)
  {
  }

  lemma SpacedIsSuspicious(n: nat)
    requires n > 0
    ensures Suspicious(Spaced(n))
  {
    var s := Spaced(n);
    var l := |s|;
    SpacedParts(n);
    NameMatches(s);
    GivenMatches(s, n);
    assert IsWord(s, 0) && IsWord(s, 7) && !IsWord(s, 8);
    AtBoundary(s, 0);
    AtBoundary(s, 8);
    JoinThen(Boundary, GIVEN, s, 8, 8, l);
    JoinThen(NAMES, Then(Boundary, GIVEN), s, 0, 8, l);
    JoinThen(Boundary, Then(NAMES, Then(Boundary, GIVEN)), s, 0, 0, l);
    assert Found(ASSIGNMENT, s);
  }

  lemma GivenMatches(s: string, n: nat)
    requires |s| == 17 + n && (forall i | 8 <= i < 8 + n :: s[i] == ' ') && s[8 + n] == '='
    requires forall i | 9 + n <= i < |s| :: s[i] in LOWER
    ensures Matches(GIVEN, s, 8, |s|)
  {
    var l := |s|;
    var value, quote, sign := AtLeast(8, SECRET), Maybe({'"', '\''}), Exactly(1, {':', '='});
    var rest := Then(AtLeast(0, BLANK), Then(quote, value));
    JoinThen(quote, value, s, 9 + n, 9 + n, l);
    JoinThen(AtLeast(0, BLANK), Then(quote, value), s, 9 + n, 9 + n, l);
    JoinThen(sign, rest, s, 8 + n, 9 + n, l);
    JoinThen(AtLeast(0, BLANK), Then(sign, rest), s, 8, 8 + n, l);
  }

  /** A credential that the scan lets pass byte by byte, however many blanks beyond the
      overlap stand in it. */
  lemma Miss(n: nat)
    requires n >= OVERLAP
    ensures var chunks := Singles(Spaced(n)); Suspicious(Concat(chunks)) && Scan(SHIPPED, chunks).Some?
  {
    var s := Spaced(n);
    forall k | 0 < k <= |s| ensures !SHIPPED(WindowAt(s, k)) { WindowsClean(n, k); }
    SinglesPass(SHIPPED, s, |s|);
    SinglesConcat(s);
    SpacedIsSuspicious(n);
    assert s[..|s|] == s;
  }

  /** The shipped detector does not meet the condition of an exact scan. */
  lemma ShippedIsNotCoherent()
    ensures !Coherent(SHIPPED)
  {
    var chunks := Singles(Spaced(OVERLAP));
    Miss(OVERLAP);
    assert !ExactOn(SHIPPED, chunks);
    ExactIffCoherent(SHIPPED);
  }
}
