/** Taking secrets out of text before it may leave the machine. */
module Redaction {
  import opened Results

  /** char::is_whitespace */
  predicate Space(c: char) {
    || '\t' <= c <= '\r' || c == ' ' || c == '\U{85}' || c == '\U{A0}' || c == '\U{1680}'
    || '\U{2000}' <= c <= '\U{200A}' || c == '\U{2028}' || c == '\U{2029}' || c == '\U{202F}'
    || c == '\U{205F}' || c == '\U{3000}'
  }

  function LowerChar(c: char): char {
    if 'A' <= c <= 'Z' then c + ('a' - 'A') else c
  }

  /** to_ascii_lowercase */
  function Lower(s: string): string {
    seq(|s|, i requires 0 <= i < |s| => LowerChar(s[i]))
  }

  predicate OccursAt(s: string, p: string, i: nat) {
    i + |p| <= |s| && s[i..i + |p|] == p
  }

  predicate Contains(s: string, p: string) {
    exists i :: 0 <= i <= |s| && OccursAt(s, p, i)
  }

  predicate StartsWith(s: string, p: string) {
    p <= s
  }

  function CharBytes(c: char): nat {
    if c < '\U{80}' then 1 else if c < '\U{800}' then 2 else if c < '\U{10000}' then 3 else 4
  }

  /** The length of a text in UTF-8. */
  function ByteLen(s: string): nat {
    if s == "" then 0 else ByteLen(s[..|s| - 1]) + CharBytes(s[|s| - 1])
  }

  datatype Label = PrivateKey | AuthorizationToken | CredentialAssignment | ApiKey | GithubToken | AwsAccessKey

  predicate Assignment(lower: string) {
    || StartsWith(lower, "authorization:") || StartsWith(lower, "bearer:") || StartsWith(lower, "password=")
    || StartsWith(lower, "passwd=") || StartsWith(lower, "token=") || StartsWith(lower, "secret=")
    || StartsWith(lower, "api_key=") || StartsWith(lower, "apikey=") || StartsWith(lower, "aws_secret_access_key=")
    || StartsWith(lower, "aws_session_token=") || StartsWith(lower, "github_token=")
  }

  function SecretLabel(word: string): Option<Label> {
    if Assignment(Lower(word)) then Some(CredentialAssignment)
    else if StartsWith(word, "sk-") && ByteLen(word) >= 20 then Some(ApiKey)
    else if StartsWith(word, "ghp_") || StartsWith(word, "github_pat_") then Some(GithubToken)
    else if StartsWith(word, "AKIA") && ByteLen(word) >= 16 then Some(AwsAccessKey)
    else if Contains(word, "-----BEGIN") || Contains(Lower(word), "private_key") then Some(PrivateKey)
    else None
  }

  const ASSIGNMENTS := [
    "authorization:", "bearer:", "password=", "passwd=", "token=", "secret=", "api_key=", "apikey=",
    "aws_secret_access_key=", "aws_session_token=", "github_token="]

  /** Which words look like a secret, and as what: an assignment to one of eleven names in any letter case, and
      otherwise the known forms of keys and tokens. */
  lemma LabelIff(word: string)
    ensures SecretLabel(word) == Some(CredentialAssignment) <==>
      exists k :: 0 <= k < |ASSIGNMENTS| && ASSIGNMENTS[k] <= Lower(word)
    ensures SecretLabel(word) == Some(GithubToken) ==> "ghp_" <= word || "github_pat_" <= word
    ensures SecretLabel(word) == Some(ApiKey) ==> "sk-" <= word && ByteLen(word) >= 20
    ensures SecretLabel(word) == Some(AwsAccessKey) ==> "AKIA" <= word && ByteLen(word) >= 16
    ensures SecretLabel(word) == None ==>
      && !("sk-" <= word && ByteLen(word) >= 20) && !("ghp_" <= word) && !("github_pat_" <= word)
      && !("AKIA" <= word && ByteLen(word) >= 16) && !Contains(word, "-----BEGIN")
      && !Contains(Lower(word), "private_key")
  {
    AssignmentIff(Lower(word));
    hide Lower, Contains, ByteLen, Assignment;
  }

  lemma AssignmentIff(lower: string)
    ensures Assignment(lower) <==> exists k :: 0 <= k < |ASSIGNMENTS| && ASSIGNMENTS[k] <= lower
  {
    assert ASSIGNMENTS[0] == "authorization:" && ASSIGNMENTS[1] == "bearer:" && ASSIGNMENTS[2] == "password=";
    assert ASSIGNMENTS[3] == "passwd=" && ASSIGNMENTS[4] == "token=" && ASSIGNMENTS[5] == "secret=";
    assert ASSIGNMENTS[6] == "api_key=" && ASSIGNMENTS[7] == "apikey=" && ASSIGNMENTS[8] == "aws_secret_access_key=";
    assert ASSIGNMENTS[9] == "aws_session_token=" && ASSIGNMENTS[10] == "github_token=";
  }

  const MARK := "[REDACTED]"
  const KEY_MARK := "[REDACTED PRIVATE KEY]"

  predicate IsBearer(word: string) { Lower(word) == "bearer" }
  predicate IsHeader(word: string) { Lower(word) == "authorization:" || IsBearer(word) }

  predicate HoldsPrivateKey(s: string) {
    Contains(Lower(s), "-----begin") && Contains(Lower(s), "private key-----")
  }

  // ----- words

  /** A word and the whitespace character that ends it; only the last word of a text may have none. */
  datatype Token = Token(word: string, suffix: string)

  predicate Plain(s: string) {
    forall i :: 0 <= i < |s| ==> !Space(s[i])
  }

  predicate IsToken(t: Token) {
    Plain(t.word) && |t.suffix| == 1 && Space(t.suffix[0])
  }

  predicate WellSplit(tokens: seq<Token>) {
    tokens == [] ||
    if tokens[0].suffix == "" then |tokens| == 1 && Plain(tokens[0].word) && tokens[0].word != ""
    else IsToken(tokens[0]) && WellSplit(tokens[1..])
  }

  function Join(tokens: seq<Token>): string {
    if tokens == [] then "" else (tokens[0].word + tokens[0].suffix) + Join(tokens[1..])
  }

  function WordEnd(s: string): (n: nat)
    ensures n <= |s| && Plain(s[..n]) && (n < |s| ==> Space(s[n]))
  {
    if s == "" || Space(s[0]) then 0
    else
      var n := WordEnd(s[1..]);
      assert s[..n + 1] == [s[0]] + s[1..][..n];
      n + 1
  }

  /** str::split_inclusive(char::is_whitespace) */
  function Split(s: string): seq<Token> {
    if s == "" then []
    else
      var n := WordEnd(s);
      if n == |s| then [Token(s, "")] else [Token(s[..n], s[n..n + 1])] + Split(s[n + 1..])
  }

  lemma {:induction false} SplitJoins(s: string)
    ensures WellSplit(Split(s)) && Join(Split(s)) == s
    decreases |s|
  {
    hide Space, WordEnd;
    if s != "" {
      var n := WordEnd(s);
      if n == |s| {
        assert s[..n] == s && Split(s)[1..] == [];
      } else {
        SplitJoins(s[n + 1..]);
        assert Split(s)[1..] == Split(s[n + 1..]);
        assert s == s[..n] + s[n..n + 1] + s[n + 1..];
      }
    }
  }

  lemma PlainUpTo(s: string, n: nat, k: nat)
    requires n <= |s| && Plain(s[..n]) && k < n
    ensures !Space(s[k])
  {
    assert s[..n][k] == s[k];
  }

  lemma WordEndUnique(s: string, n: nat)
    requires n <= |s| && Plain(s[..n]) && (n < |s| ==> Space(s[n]))
    ensures WordEnd(s) == n
  {
    hide Plain, Space;
    var m := WordEnd(s);
    if m < n {
      PlainUpTo(s, n, m);
    } else if n < m {
      PlainUpTo(s, m, n);
    }
  }

  lemma SplitFront(t: Token, rest: string)
    requires IsToken(t)
    ensures Split((t.word + t.suffix) + rest) == [t] + Split(rest)
  {
    hide Space, WordEnd;
    var s, n := (t.word + t.suffix) + rest, |t.word|;
    assert s[..n] == t.word && s[n] == t.suffix[0];
    WordEndUnique(s, n);
    assert s[n..n + 1] == t.suffix && s[n + 1..] == rest;
  }

  lemma SplitWord(word: string)
    requires Plain(word) && word != ""
    ensures Split(word) == [Token(word, "")]
  {
    hide Space, WordEnd;
    assert word[..|word|] == word;
    WordEndUnique(word, |word|);
  }

  lemma OnlyWord(tokens: seq<Token>)
    requires |tokens| == 1 && tokens[0].suffix == ""
    ensures Join(tokens) == tokens[0].word && tokens == [Token(tokens[0].word, "")]
  {
    assert tokens[1..] == [];
  }

  lemma {:induction false} JoinSplits(tokens: seq<Token>)
    requires WellSplit(tokens)
    ensures Split(Join(tokens)) == tokens
    decreases |tokens|
  {
    if tokens != [] {
      hide Split, IsToken, Plain;
      var t := tokens[0];
      if t.suffix == "" {
        OnlyWord(tokens);
        SplitWord(t.word);
      } else {
        SplitFront(t, Join(tokens[1..]));
        JoinSplits(tokens[1..]);
        assert tokens == [t] + tokens[1..];
      }
    }
  }

  // ----- redaction of a list of words

  /** What becomes of a word, and whether the word after it is to be redacted. */
  function Treated(word: string, pending: bool): (string, Option<Label>, bool) {
    if pending && IsBearer(word) then (word, None, true)
    else if pending then (MARK, Some(AuthorizationToken), false)
    else if IsHeader(word) then (word, None, true)
    else if SecretLabel(word).Some? then (MARK, SecretLabel(word), false)
    else (word, None, false)
  }

  function Redacted(tokens: seq<Token>, pending: bool): seq<Token> {
    if tokens == [] then []
    else
      var (word, _, next) := Treated(tokens[0].word, pending);
      [tokens[0].(word := word)] + Redacted(tokens[1..], next)
  }

  function Found(tokens: seq<Token>, pending: bool): seq<Label> {
    if tokens == [] then []
    else
      var (_, tag, next) := Treated(tokens[0].word, pending);
      (if tag.Some? then [tag.value] else []) + Found(tokens[1..], next)
  }

  function RedactedText(s: string): string {
    if HoldsPrivateKey(s) then KEY_MARK else Join(Redacted(Split(s), false))
  }

  /** The body of the loop over words. */
  method Treat(word: string, pending: bool) returns (out: string, tag: Option<Label>, next: bool)
    ensures (out, tag, next) == Treated(word, pending)
  {
    hide SecretLabel, Lower;
    if pending && IsBearer(word) { return word, None, true; }
    if pending { return MARK, Some(AuthorizationToken), false; }
    if Lower(word) == "authorization:" || IsBearer(word) { return word, None, true; }
    tag := SecretLabel(word);
    if tag.Some? { return MARK, tag, false; }
    return word, None, false;
  }

  /** redact_secrets */
  method RedactSecrets(input: string) returns (output: string, labels: seq<Label>)
    ensures output == RedactedText(input)
    ensures labels == if HoldsPrivateKey(input) then [PrivateKey] else Found(Split(input), false)
  {
    if Contains(Lower(input), "-----begin") && Contains(Lower(input), "private key-----") {
      return KEY_MARK, [PrivateKey];
    }
    assert !HoldsPrivateKey(input);
    hide HoldsPrivateKey, Treated, Lower, Contains, Split, Join, Redacted, Found;
    output, labels := "", [];
    var pending := false;
    var tokens := Split(input);
    var i := 0;
    assert tokens[0..] == tokens;
    while i < |tokens|
      invariant 0 <= i <= |tokens|
      invariant output + Join(Redacted(tokens[i..], pending)) == Join(Redacted(tokens, false))
      invariant labels + Found(tokens[i..], pending) == Found(tokens, false)
    {
      assert tokens[i..][1..] == tokens[i + 1..];
      StepText(output, tokens[i..], pending);
      StepLabels(labels, tokens[i..], pending);
      var word, tag, next := Treat(tokens[i].word, pending);
      output := output + (word + tokens[i].suffix);
      labels := labels + if tag.Some? then [tag.value] else [];
      pending := next;
      i := i + 1;
    }
    assert tokens[i..] == [];
    NothingLeft(pending);
  }

  lemma NothingLeft(pending: bool)
    ensures Join(Redacted([], pending)) == "" && Found([], pending) == []
  {
  }

  lemma StepText(output: string, tokens: seq<Token>, pending: bool)
    requires tokens != []
    ensures var (word, _, next) := Treated(tokens[0].word, pending);
      output + Join(Redacted(tokens, pending)) ==
        (output + (word + tokens[0].suffix)) + Join(Redacted(tokens[1..], next))
  {
    hide Treated, Join;
    var (word, _, next) := Treated(tokens[0].word, pending);
    JoinFront(tokens[0].(word := word), Redacted(tokens[1..], next));
  }

  lemma StepLabels(labels: seq<Label>, tokens: seq<Token>, pending: bool)
    requires tokens != []
    ensures var (_, tag, next) := Treated(tokens[0].word, pending);
      labels + Found(tokens, pending) == (labels + if tag.Some? then [tag.value] else []) + Found(tokens[1..], next)
  {
    hide Treated;
  }

  lemma JoinFront(t: Token, rest: seq<Token>)
    ensures Join([t] + rest) == (t.word + t.suffix) + Join(rest)
  {
    assert ([t] + rest)[1..] == rest;
  }

  // ----- what redaction keeps, and what it leaves

  /** The same whitespace in the same places, and every word kept or replaced by the mark. */
  lemma {:induction false} KeepsLayout(tokens: seq<Token>, pending: bool)
    requires WellSplit(tokens)
    ensures var r := Redacted(tokens, pending);
      && WellSplit(r) && |r| == |tokens|
      && forall i :: 0 <= i < |r| ==>
        r[i].suffix == tokens[i].suffix && (r[i].word == tokens[i].word || r[i].word == MARK)
    decreases |tokens|
  {
    hide SecretLabel, IsBearer, IsHeader;
    if tokens != [] {
      var (word, _, next) := Treated(tokens[0].word, pending);
      var r := Redacted(tokens, pending);
      assert r[1..] == Redacted(tokens[1..], next);
      if tokens[0].suffix != "" { KeepsLayout(tokens[1..], next); }
      assert Plain(MARK) by { MarkIsPlain(); }
      if tokens[0].suffix == "" { assert tokens[1..] == []; }
      forall i | 0 <= i < |r|
        ensures r[i].suffix == tokens[i].suffix && (r[i].word == tokens[i].word || r[i].word == MARK)
      {
        if i > 0 { assert r[i] == r[1..][i - 1] && tokens[i] == tokens[1..][i - 1]; }
      }
    }
  }

  lemma ContainsFirst(s: string, p: string)
    requires p != "" && Contains(s, p)
    ensures p[0] in s
  {
    var i :| 0 <= i <= |s| && OccursAt(s, p, i);
    assert s[i..i + |p|][0] == s[i];
  }

  lemma LowerHas(s: string, c: char)
    requires c in s
    ensures LowerChar(c) in Lower(s)
  {
    var i :| 0 <= i < |s| && s[i] == c;
    assert Lower(s)[i] == LowerChar(c);
  }

  /** A word whose lower case has neither a dash nor a p, and does not start like a secret. */
  lemma Harmless(word: string)
    requires '-' !in Lower(word) && 'p' !in Lower(word) && !Assignment(Lower(word))
    requires word != "" && LowerChar(word[0]) != 's' && LowerChar(word[0]) != 'g' && LowerChar(word[0]) != 'a'
    ensures SecretLabel(word) == None
  {
    if Contains(word, "-----BEGIN") {
      ContainsFirst(word, "-----BEGIN");
      LowerHas(word, '-');
    }
    if Contains(Lower(word), "private_key") { ContainsFirst(Lower(word), "private_key"); }
  }

  lemma MarkLower()
    ensures Lower(MARK) == "[redacted]"
  {
    assert LowerChar('[') == '[' && LowerChar('R') == 'r' && LowerChar('E') == 'e' && LowerChar('D') == 'd'
      && LowerChar('A') == 'a' && LowerChar('C') == 'c' && LowerChar('T') == 't' && LowerChar(']') == ']';
  }

  lemma NoAssignment(lower: string)
    requires lower != "" && lower[0] == '['
    ensures !Assignment(lower)
  {
  }

  lemma MarkIsPlain()
    ensures Plain(MARK) && !IsHeader(MARK) && SecretLabel(MARK) == None
  {
    hide Lower, SecretLabel;
    MarkLower();
    NoAssignment("[redacted]");
    Harmless(MARK);
  }

  lemma BearerIsHarmless(word: string)
    requires IsBearer(word)
    ensures SecretLabel(word) == None
  {
    assert Lower(word)[0] == LowerChar(word[0]) == 'b';
    Harmless(word);
  }

  /** Nothing that still looks like a secret comes out, but for the bare header name. */
  lemma {:induction false} LeavesNoSecret(tokens: seq<Token>, pending: bool)
    ensures forall i :: 0 <= i < |Redacted(tokens, pending)| ==>
      var word := Redacted(tokens, pending)[i].word;
      SecretLabel(word).Some? ==> Lower(word) == "authorization:"
  {
    hide SecretLabel, Lower, Contains;
    if tokens != [] {
      var (word, _, next) := Treated(tokens[0].word, pending);
      LeavesNoSecret(tokens[1..], next);
      MarkIsPlain();
      if IsBearer(word) { BearerIsHarmless(word); }
    }
  }

  /** Redacting words again changes nothing. */
  lemma {:induction false} WordsIdempotent(tokens: seq<Token>, pending: bool)
    ensures Redacted(Redacted(tokens, pending), pending) == Redacted(tokens, pending)
  {
    hide SecretLabel, Lower, IsBearer, IsHeader;
    if tokens != [] {
      var (word, _, next) := Treated(tokens[0].word, pending);
      var r := Redacted(tokens, pending);
      assert r[1..] == Redacted(tokens[1..], next);
      WordsIdempotent(tokens[1..], next);
      MarkIsPlain();
      BearerIsHeader(MARK);
      assert Treated(word, pending).0 == word && Treated(word, pending).2 == next;
    }
  }

  lemma BearerIsHeader(word: string)
    ensures IsBearer(word) ==> IsHeader(word)
  {
  }

  /** Whether a mark is pending when word `i` is reached. */
  function Pending(tokens: seq<Token>, pending: bool, i: nat): bool
    requires i <= |tokens|
  {
    if i == 0 then pending else Treated(tokens[i - 1].word, Pending(tokens, pending, i - 1)).2
  }

  lemma {:induction false} PendingFront(tokens: seq<Token>, pending: bool, i: nat)
    requires 0 < i <= |tokens|
    ensures Pending(tokens, pending, i) == Pending(tokens[1..], Treated(tokens[0].word, pending).2, i - 1)
  {
    hide Treated;
    if i > 1 {
      PendingFront(tokens, pending, i - 1);
      assert tokens[i - 1] == tokens[1..][i - 2];
    }
  }

  /** What becomes of any word of any text. */
  lemma {:induction false} RedactedAt(tokens: seq<Token>, pending: bool, i: nat)
    requires i < |tokens|
    ensures |Redacted(tokens, pending)| == |tokens|
    ensures Redacted(tokens, pending)[i].word == Treated(tokens[i].word, Pending(tokens, pending, i)).0
    decreases |tokens|
  {
    hide Treated;
    var next := Treated(tokens[0].word, pending).2;
    if i > 0 {
      PendingFront(tokens, pending, i);
      RedactedAt(tokens[1..], next, i - 1);
      assert tokens[i] == tokens[1..][i - 1];
    } else if |tokens| > 1 {
      RedactedAt(tokens[1..], next, 0);
    } else {
      assert tokens[1..] == [];
    }
  }

  /** A mark is pending at a word exactly when the word before it is a header at which none was, or is bearer. */
  lemma PendingIff(tokens: seq<Token>, i: nat)
    requires i <= |tokens|
    ensures Pending(tokens, false, i) <==>
      i > 0 && IsHeader(tokens[i - 1].word) && (!Pending(tokens, false, i - 1) || IsBearer(tokens[i - 1].word))
  {
    hide SecretLabel, Lower;
    if i > 0 { BearerIsHeader(tokens[i - 1].word); }
  }

  /** In any text a word is replaced exactly when a mark is pending at it and it is not bearer, or none is, it is no
      header, and it looks like a secret. Every other word stays. */
  lemma MarkedIff(tokens: seq<Token>, i: nat)
    requires i < |tokens| && tokens[i].word != MARK
    ensures |Redacted(tokens, false)| == |tokens|
    ensures var word, after := tokens[i].word, Redacted(tokens, false)[i].word;
      if (if Pending(tokens, false, i) then !IsBearer(word) else !IsHeader(word) && SecretLabel(word).Some?)
      then after == MARK else after == word
  {
    hide SecretLabel, Lower, Redacted;
    RedactedAt(tokens, false, i);
  }

  lemma {:induction false} GapEndsPending(tokens: seq<Token>, pending: bool, i: nat, j: nat)
    requires i < j <= |tokens| && forall k :: i <= k < j ==> tokens[k].word == ""
    ensures !Pending(tokens, pending, j)
  {
    hide SecretLabel;
    EmptyIsHarmless();
    if j > i + 1 { GapEndsPending(tokens, pending, i, j - 1); }
  }

  /** Not every word after a header is redacted. In any text, the next word that is not empty is marked
      exactly when one whitespace character stands between them, since a second one makes an empty word
      that takes the mark; and when no mark was pending at the header, which takes it itself, unless
      the header is the word bearer. */
  lemma CredentialMarkedIff(tokens: seq<Token>, pending: bool, i: nat, j: nat)
    requires i < j < |tokens| && IsHeader(tokens[i].word) && forall k :: i < k < j ==> tokens[k].word == ""
    requires var credential := tokens[j].word;
      !IsHeader(credential) && SecretLabel(credential) == None && credential != MARK
    ensures |Redacted(tokens, pending)| == |tokens|
    ensures Redacted(tokens, pending)[j].word == MARK <==>
      j == i + 1 && (!Pending(tokens, pending, i) || IsBearer(tokens[i].word))
  {
    hide SecretLabel, Lower, Redacted;
    RedactedAt(tokens, pending, j);
    BearerIsHeader(tokens[j].word);
    if j > i + 1 { GapEndsPending(tokens, pending, i + 1, j); }
  }

  /** Two spaces after a header. */
  lemma SecondSpaceTakesMark(header: string, credential: string)
    requires IsHeader(header) && !IsHeader(credential) && SecretLabel(credential) == None && credential != MARK
    ensures var tokens := [Token(header, " "), Token("", " "), Token(credential, "")];
      |Redacted(tokens, false)| == 3 && Redacted(tokens, false)[2].word != MARK
  {
    hide SecretLabel, Lower, Redacted;
    CredentialMarkedIff([Token(header, " "), Token("", " "), Token(credential, "")], false, 0, 2);
  }

  /** One header after another: the second one is marked instead of its credential. */
  lemma SecondHeaderTakesMark(first: string, header: string, credential: string)
    requires IsHeader(first) && Lower(header) == "authorization:"
    requires !IsHeader(credential) && SecretLabel(credential) == None && credential != MARK
    ensures var tokens := [Token(first, " "), Token(header, " "), Token(credential, "")];
      |Redacted(tokens, false)| == 3 && Redacted(tokens, false)[2].word != MARK
  {
    hide SecretLabel, Lower, Redacted;
    var tokens := [Token(first, " "), Token(header, " "), Token(credential, "")];
    assert Pending(tokens, false, 0) == false && Pending(tokens, false, 1);
    CredentialMarkedIff(tokens, false, 1, 2);
  }

  lemma EmptyIsHarmless()
    ensures Lower("") == "" && SecretLabel("") == None
  {
    assert Lower("") == "";
    if Contains("", "-----BEGIN") { ContainsFirst("", "-----BEGIN"); }
    if Contains("", "private_key") { ContainsFirst("", "private_key"); }
  }

  // ----- the same for whole texts

  predicate EndsIn(s: string, p: string) {
    |p| <= |s| && s[|s| - |p|..] == p
  }

  /** Some word, in lower case, contains `p`. */
  predicate HasWord(tokens: seq<Token>, p: string) {
    exists i :: 0 <= i < |tokens| && Contains(Lower(tokens[i].word), p)
  }

  /** Two words next to each other, one space apart, end in `a` and begin with `b`. */
  predicate HasPair(tokens: seq<Token>, a: string, b: string) {
    exists i :: 0 <= i < |tokens| - 1 && PairAt(tokens[i], tokens[i + 1], a, b)
  }

  predicate PairAt(t: Token, u: Token, a: string, b: string) {
    t.suffix == " " && EndsIn(Lower(t.word), a) && StartsWith(Lower(u.word), b)
  }

  lemma LowerParts(a: string, b: string)
    ensures Lower(a + b) == Lower(a) + Lower(b)
  {
  }

  lemma LowerSpace(s: string, i: nat)
    requires i < |s|
    ensures Space(Lower(s)[i]) == Space(s[i])
  {
  }

  lemma OccursChars(s: string, p: string, i: nat)
    requires OccursAt(s, p, i)
    ensures forall j :: i <= j < i + |p| ==> s[j] == p[j - i]
  {
    forall j | i <= j < i + |p| ensures s[j] == p[j - i] { assert s[i..i + |p|][j - i] == s[j]; }
  }

  lemma OccursInRest(word: string, c: char, rest: string, p: string, i: nat)
    ensures OccursAt(word + [c] + rest, p, |word| + 1 + i) <==> OccursAt(rest, p, i)
  {
    var s, n := word + [c] + rest, |word| + 1 + i;
    if i + |p| <= |rest| { assert s[n..n + |p|] == rest[i..i + |p|]; }
  }

  /** Where a pattern without whitespace can be: in the first word or in the rest. */
  lemma ContainsSplits(word: string, c: char, rest: string, p: string)
    requires Plain(p) && p != "" && Space(c)
    ensures Contains(word + [c] + rest, p) <==> Contains(word, p) || Contains(rest, p)
  {
    var s, n := word + [c] + rest, |word|;
    if Contains(s, p) {
      var i :| 0 <= i <= |s| && OccursAt(s, p, i);
      OccursChars(s, p, i);
      assert s[n] == c;
      assert !(i <= n < i + |p|);
      if i + |p| <= n {
        assert word[i..i + |p|] == s[i..i + |p|];
        assert OccursAt(word, p, i);
      } else {
        OccursInRest(word, c, rest, p, i - n - 1);
      }
    }
    if Contains(word, p) {
      var i :| 0 <= i <= |word| && OccursAt(word, p, i);
      assert s[i..i + |p|] == word[i..i + |p|];
      assert OccursAt(s, p, i);
    }
    if Contains(rest, p) {
      var i :| 0 <= i <= |rest| && OccursAt(rest, p, i);
      OccursInRest(word, c, rest, p, i);
    }
  }

  /** The whitespace inside a two-word pattern cannot fall into a word. */
  lemma PairPlace(word: string, c: char, rest: string, a: string, b: string, i: nat)
    requires Plain(a) && Plain(word) && Space(c) && OccursAt(word + [c] + rest, a + " " + b, i)
    ensures i > |word| || i + |a| == |word|
  {
    var s, n, p, k := word + [c] + rest, |word|, a + " " + b, |a|;
    OccursChars(s, p, i);
    assert p[k] == ' ' && s[i + k] == ' ' && s[n] == c;
    assert forall j :: 0 <= j < n ==> s[j] == word[j];
    assert forall j :: 0 <= j < k ==> p[j] == a[j];
    assert i + k >= n;
  }

  lemma PairAcross(word: string, c: char, rest: string, a: string, b: string)
    ensures |a| <= |word| && OccursAt(word + [c] + rest, a + " " + b, |word| - |a|) <==>
      c == ' ' && EndsIn(word, a) && StartsWith(rest, b)
  {
    var s, n, p, k := word + [c] + rest, |word|, a + " " + b, |a|;
    if k <= n && |b| <= |rest| {
      var window := s[n - k..n - k + |p|];
      assert window == word[n - k..] + [c] + rest[..|b|];
      assert window[..k] == word[n - k..] && window[k] == c && window[k + 1..] == rest[..|b|];
      assert p[..k] == a && p[k] == ' ' && p[k + 1..] == b;
    }
  }

  /** And where a pattern of two words can be. */
  lemma ContainsPairSplits(word: string, c: char, rest: string, a: string, b: string)
    requires Plain(a) && Plain(word) && Space(c)
    ensures Contains(word + [c] + rest, a + " " + b) <==>
      (c == ' ' && EndsIn(word, a) && StartsWith(rest, b)) || Contains(rest, a + " " + b)
  {
    hide OccursAt, EndsIn, StartsWith, Plain, Space;
    var s, n, p := word + [c] + rest, |word|, a + " " + b;
    PairAcross(word, c, rest, a, b);
    if Contains(s, p) {
      var i :| 0 <= i <= |s| && OccursAt(s, p, i);
      PairPlace(word, c, rest, a, b, i);
      if i > n { OccursInRest(word, c, rest, p, i - n - 1); }
    }
    if Contains(rest, p) {
      var i :| 0 <= i <= |rest| && OccursAt(rest, p, i);
      OccursInRest(word, c, rest, p, i);
      assert OccursAt(s, p, n + 1 + i);
    }
  }

  lemma LowerPlain(word: string)
    requires Plain(word)
    ensures Plain(Lower(word))
  {
    forall i | 0 <= i < |word| ensures !Space(Lower(word)[i]) { LowerSpace(word, i); }
  }

  lemma LowerJoin(tokens: seq<Token>)
    requires WellSplit(tokens) && tokens != [] && tokens[0].suffix != ""
    ensures Lower(Join(tokens)) == Lower(tokens[0].word) + [tokens[0].suffix[0]] + Lower(Join(tokens[1..]))
    ensures Space(tokens[0].suffix[0])
  {
    var t := tokens[0];
    LowerParts(t.word + t.suffix, Join(tokens[1..]));
    LowerParts(t.word, t.suffix);
    assert t.suffix == [t.suffix[0]] && Lower(t.suffix) == [LowerChar(t.suffix[0])];
  }

  lemma {:induction false} WordIff(tokens: seq<Token>, p: string)
    requires WellSplit(tokens) && Plain(p) && p != ""
    ensures Contains(Lower(Join(tokens)), p) <==> HasWord(tokens, p)
    decreases |tokens|
  {
    hide Lower, Contains;
    if tokens == [] {
      if Contains(Lower(""), p) { ContainsFirst(Lower(""), p); assert Lower("") == "" by { EmptyIsHarmless(); } }
    } else if tokens[0].suffix == "" {
      assert tokens[1..] == [] && Join(tokens) == tokens[0].word;
    } else {
      LowerJoin(tokens);
      ContainsSplits(Lower(tokens[0].word), tokens[0].suffix[0], Lower(Join(tokens[1..])), p);
      WordIff(tokens[1..], p);
      HasWordFront(tokens, p);
    }
  }

  lemma HasWordFront(tokens: seq<Token>, p: string)
    requires tokens != []
    ensures HasWord(tokens, p) <==> Contains(Lower(tokens[0].word), p) || HasWord(tokens[1..], p)
  {
    hide Lower, Contains;
    if HasWord(tokens[1..], p) {
      var i :| 0 <= i < |tokens| - 1 && Contains(Lower(tokens[1..][i].word), p);
      assert tokens[i + 1] == tokens[1..][i];
    }
    if HasWord(tokens, p) && !Contains(Lower(tokens[0].word), p) {
      var i :| 0 <= i < |tokens| && Contains(Lower(tokens[i].word), p);
      assert tokens[1..][i - 1] == tokens[i];
    }
  }

  lemma HasPairFront(tokens: seq<Token>, a: string, b: string)
    requires tokens != []
    ensures HasPair(tokens, a, b) <==>
      (|tokens| > 1 && PairAt(tokens[0], tokens[1], a, b)) || HasPair(tokens[1..], a, b)
  {
    hide PairAt;
    if HasPair(tokens[1..], a, b) {
      var i :| 0 <= i < |tokens| - 2 && PairAt(tokens[1..][i], tokens[1..][i + 1], a, b);
      assert tokens[1..][i] == tokens[i + 1] && tokens[1..][i + 1] == tokens[i + 1 + 1];
    }
    if HasPair(tokens, a, b) {
      var i :| 0 <= i < |tokens| - 1 && PairAt(tokens[i], tokens[i + 1], a, b);
      if i > 0 { assert tokens[1..][i - 1] == tokens[i] && tokens[1..][i - 1 + 1] == tokens[i + 1]; }
    }
  }

  /** A text starts with `b` exactly when its first word does. */
  lemma StartsIff(tokens: seq<Token>, b: string)
    requires WellSplit(tokens) && Plain(b) && b != ""
    ensures StartsWith(Lower(Join(tokens)), b) <==> tokens != [] && StartsWith(Lower(tokens[0].word), b)
  {
    hide Lower;
    if tokens == [] {
      EmptyIsHarmless();
    } else if tokens[0].suffix == "" {
      assert tokens[1..] == [] && Join(tokens) == tokens[0].word;
    } else {
      LowerJoin(tokens);
      var w, s := Lower(tokens[0].word), Lower(Join(tokens));
      assert s[..|w|] == w && Space(s[|w|]);
      if StartsWith(s, b) {
        assert !(|w| < |b|);
        assert b == s[..|b|] == w[..|b|];
      }
    }
  }

  lemma NoPairInWord(word: string, a: string, b: string)
    requires Plain(word)
    ensures !Contains(word, a + " " + b)
  {
    var p := a + " " + b;
    assert p[|a|] == ' ';
    forall i | 0 <= i <= |word| ensures !OccursAt(word, p, i) {
      if i + |p| <= |word| { assert word[i..i + |p|][|a|] == word[i + |a|]; }
    }
  }

  lemma {:induction false} PairIff(tokens: seq<Token>, a: string, b: string)
    requires WellSplit(tokens) && Plain(a) && Plain(b) && b != ""
    ensures Contains(Lower(Join(tokens)), a + " " + b) <==> HasPair(tokens, a, b)
    decreases |tokens|
  {
    hide Lower, Contains, EndsIn;
    if tokens == [] {
      EmptyIsHarmless();
      NoPairInWord("", a, b);
    } else if tokens[0].suffix == "" {
      assert tokens[1..] == [] && Join(tokens) == tokens[0].word;
      LowerPlain(tokens[0].word);
      NoPairInWord(Lower(tokens[0].word), a, b);
    } else {
      var t, rest := tokens[0], tokens[1..];
      LowerJoin(tokens);
      LowerPlain(t.word);
      ContainsPairSplits(Lower(t.word), t.suffix[0], Lower(Join(rest)), a, b);
      StartsIff(rest, b);
      PairIff(rest, a, b);
      HasPairFront(tokens, a, b);
      assert t.suffix == [t.suffix[0]];
    }
  }

  lemma MarkHasNoKey()
    ensures !Contains(Lower(MARK), "-----begin")
    ensures !EndsIn(Lower(MARK), "private") && !StartsWith(Lower(MARK), "key-----")
  {
    MarkLower();
    if Contains(Lower(MARK), "-----begin") { ContainsFirst(Lower(MARK), "-----begin"); }
    var m, p := "[redacted]", "private";
    assert m[|m| - |p|..][6] == ']';
    assert m[0] != "key-----"[0];
  }

  /** Redaction does not put a private key together. */
  lemma AddsNoKey(tokens: seq<Token>)
    requires WellSplit(tokens)
    ensures HoldsPrivateKey(Join(Redacted(tokens, false))) ==> HoldsPrivateKey(Join(tokens))
  {
    hide Lower, Contains, EndsIn, Redacted, StartsWith, Join;
    var r := Redacted(tokens, false);
    KeepsLayout(tokens, false);
    MarkHasNoKey();
    var begin, a, b := "-----begin", "private", "key-----";
    assert a + " " + b == "private key-----";
    WordIff(r, begin);
    WordIff(tokens, begin);
    PairIff(r, a, b);
    PairIff(tokens, a, b);
    if HasWord(r, begin) && HasPair(r, a, b) {
      var i :| 0 <= i < |r| && Contains(Lower(r[i].word), begin);
      assert r[i].word == tokens[i].word;
      var j :| 0 <= j < |r| - 1 && PairAt(r[j], r[j + 1], a, b);
      assert r[j].word == tokens[j].word && r[j + 1].word == tokens[j + 1].word;
      assert PairAt(tokens[j], tokens[j + 1], a, b);
    }
  }

  const KEY_TOKENS := [Token("[REDACTED", " "), Token("PRIVATE", " "), Token("KEY]", "")]

  lemma KeyTokens()
    ensures WellSplit(KEY_TOKENS) && Join(KEY_TOKENS) == KEY_MARK
  {
    var t := KEY_TOKENS;
    assert t[1..] == [t[1], t[2]] && t[1..][1..] == [t[2]] && [t[2]][1..] == [];
    assert Join([t[2]]) == "KEY]" && Join([t[1], t[2]]) == "PRIVATE KEY]";
    assert WellSplit([t[2]]) && WellSplit([t[1], t[2]]);
  }

  lemma KeyTokensStay()
    ensures Redacted(KEY_TOKENS, false) == KEY_TOKENS
  {
    hide SecretLabel, IsHeader;
    KeyWords();
    var t := KEY_TOKENS;
    assert t[1..] == [t[1], t[2]] && t[1..][1..] == [t[2]] && [t[2]][1..] == [];
    assert Redacted([t[2]], false) == [t[2]];
    assert Redacted([t[1], t[2]], false) == [t[1], t[2]];
  }

  lemma KeyMarkStays()
    ensures RedactedText(KEY_MARK) == KEY_MARK
  {
    hide Redacted, Split, Join, WellSplit, Lower;
    KeyTokens();
    JoinSplits(KEY_TOKENS);
    KeyTokensStay();
    NoDash();
    if Contains(Lower(KEY_MARK), "-----begin") { ContainsFirst(Lower(KEY_MARK), "-----begin"); }
  }

  lemma NoDash()
    ensures '-' !in Lower(KEY_MARK)
  {
  }

  lemma KeyWords()
    ensures !IsHeader("[REDACTED") && SecretLabel("[REDACTED") == None
    ensures !IsHeader("PRIVATE") && SecretLabel("PRIVATE") == None
    ensures !IsHeader("KEY]") && SecretLabel("KEY]") == None
  {
    hide SecretLabel, Lower;
    KeyLowers();
    NoAssignment("[redacted");
    Harmless("[REDACTED");
    Harmless("KEY]");
    PrivateIsHarmless();
  }

  lemma KeyLowers()
    ensures Lower("[REDACTED") == "[redacted" && Lower("KEY]") == "key]" && Lower("PRIVATE") == "private"
  {
    assert LowerChar('[') == '[' && LowerChar('R') == 'r' && LowerChar('E') == 'e' && LowerChar('D') == 'd'
      && LowerChar('A') == 'a' && LowerChar('C') == 'c' && LowerChar('T') == 't' && LowerChar(']') == ']';
    assert LowerChar('K') == 'k' && LowerChar('Y') == 'y';
    assert LowerChar('P') == 'p' && LowerChar('I') == 'i' && LowerChar('V') == 'v';
  }

  lemma PrivateIsHarmless()
    ensures SecretLabel("PRIVATE") == None
  {
    hide Lower;
    KeyLowers();
    if Contains("PRIVATE", "-----BEGIN") { ContainsFirst("PRIVATE", "-----BEGIN"); }
    var w, p, k := "PRIVATE", "private", "private_key";
    assert w[0] == 'P' && !StartsWith(w, "sk-") && !StartsWith(w, "ghp_");
    assert !StartsWith(w, "github_pat_") && !StartsWith(w, "AKIA");
    assert !Contains(p, k);
    assert p[1] == 'r' && !Assignment(p);
  }

  /** Redacting a text twice is redacting it once. */
  lemma TextIdempotent(s: string)
    ensures RedactedText(RedactedText(s)) == RedactedText(s)
  {
    hide Redacted, Split, Join, HoldsPrivateKey;
    if HoldsPrivateKey(s) {
      KeyMarkStays();
    } else {
      var tokens := Split(s);
      SplitJoins(s);
      KeepsLayout(tokens, false);
      JoinSplits(Redacted(tokens, false));
      WordsIdempotent(tokens, false);
      AddsNoKey(tokens);
    }
  }
}
