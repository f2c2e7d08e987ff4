/**
 * A model of repeat-chat-ai's playback pipeline: text cleanup and sentence
 * splitting, the compilation of one dialogue turn into commands, the command
 * deque with its repeat injection, and the prefetch/drain loop of `repl`.
 */
module RepeatChat {

  datatype Option<T> = None | Some(value: T)

  // ---------------------------------------------------------------------------
  // Part 1. Text: clean_text and split_sentences
  // ---------------------------------------------------------------------------

  /** The three characters that end a sentence for the splitter. */
  predicate IsTerminator(c: char) {
    c == '.' || c == '!' || c == '?'
  }

  /** The characters Python's `str.strip()` removes: those for which `str.isspace` holds. */
  const Whitespace: set<char> := {
    '\t', '\n', '\U{0B}', '\U{0C}', '\r', '\U{1C}', '\U{1D}', '\U{1E}', '\U{1F}', ' ',
    '\U{85}', '\U{A0}', '\U{1680}',
    '\U{2000}', '\U{2001}', '\U{2002}', '\U{2003}', '\U{2004}', '\U{2005}',
    '\U{2006}', '\U{2007}', '\U{2008}', '\U{2009}', '\U{200A}',
    '\U{2028}', '\U{2029}', '\U{202F}', '\U{205F}', '\U{3000}'
  }

  /** The straight and curly double quotes that `clean_text` strips after the whitespace. */
  const Quotes: set<char> := {'"', '\U{201C}', '\U{201D}'}

  /** `s.lstrip(cs)`: drop the characters of `cs` from the front. */
  function TrimLeft(s: string, cs: set<char>): (r: string)
    ensures |r| <= |s|
    decreases |s|
  {
    if |s| > 0 && s[0] in cs then TrimLeft(s[1..], cs) else s
  }

  /** `lstrip` keeps the longest suffix that does not start with a character of `cs`. */
  lemma {:induction false} TrimLeftSuffix(s: string, cs: set<char>)
    ensures var r := TrimLeft(s, cs);
      && |r| <= |s| && r == s[|s| - |r|..]
      && (forall k :: 0 <= k < |s| - |r| ==> s[k] in cs)
      && (r == [] || r[0] !in cs)
    decreases |s|
  {
    if |s| > 0 && s[0] in cs {
      TrimLeftSuffix(s[1..], cs);
      var r := TrimLeft(s, cs);
      assert s[1..][|s| - 1 - |r|..] == s[|s| - |r|..];
      forall k | 0 <= k < |s| - |r| ensures s[k] in cs {
        if k > 0 { assert s[k] == s[1..][k - 1]; }
      }
    }
  }

  /** `s.rstrip(cs)`: drop the characters of `cs` from the back. */
  function TrimRight(s: string, cs: set<char>): string
    decreases |s|
  {
    if |s| > 0 && s[|s| - 1] in cs then TrimRight(s[..|s| - 1], cs) else s
  }

  /** `rstrip` keeps the longest prefix that does not end with a character of `cs`. */
  lemma {:induction false} TrimRightPrefix(s: string, cs: set<char>)
    ensures var r := TrimRight(s, cs);
      && |r| <= |s| && r == s[..|r|]
      && (forall k :: |r| <= k < |s| ==> s[k] in cs)
      && (r == [] || r[|r| - 1] !in cs)
    decreases |s|
  {
    if |s| > 0 && s[|s| - 1] in cs {
      TrimRightPrefix(s[..|s| - 1], cs);
      var r := TrimRight(s, cs);
      assert s[..|s| - 1][..|r|] == s[..|r|];
      forall k | |r| <= k < |s| ensures s[k] in cs {
        if k < |s| - 1 { assert s[k] == s[..|s| - 1][k]; }
      }
    }
  }

  /**
   * `r` is what remains of `s` once a prefix of length `i` and some suffix,
   * both made only of characters of `cs`, are cut off.
   */
  predicate IsTrimmed(s: string, r: string, i: nat, cs: set<char>) {
    && i + |r| <= |s|
    && r == s[i..i + |r|]
    && (forall k :: 0 <= k < i ==> s[k] in cs)
    && (forall k :: i + |r| <= k < |s| ==> s[k] in cs)
  }

  /** `s.strip(cs)`: drop the characters of `cs` from both ends. */
  function Strip(s: string, cs: set<char>): string {
    TrimRight(TrimLeft(s, cs), cs)
  }

  /** Where `Strip(s, cs)` starts within `s`. */
  function StripStart(s: string, cs: set<char>): nat {
    |s| - |TrimLeft(s, cs)|
  }

  /**
   * `strip` cuts only characters of `cs`, and only at the ends, and what it
   * keeps neither starts nor ends with one of them.
   */
  lemma StripTrims(s: string, cs: set<char>)
    ensures IsTrimmed(s, Strip(s, cs), StripStart(s, cs), cs)
    ensures var r := Strip(s, cs); r == [] || (r[0] !in cs && r[|r| - 1] !in cs)
  {
    var t := TrimLeft(s, cs);
    var r := Strip(s, cs);
    var i := StripStart(s, cs);
    TrimLeftSuffix(s, cs);
    TrimRightPrefix(t, cs);
    forall k | 0 <= k < |r| ensures r[k] == s[i + k] {
      assert r[k] == t[k];
    }
    assert r == s[i..i + |r|];
    forall k | i + |r| <= k < |s| ensures s[k] in cs {
      assert s[k] == t[k - i];
    }
  }

  /** Cutting in two rounds is cutting once, with the union of the character sets. */
  lemma TrimmedTwice(s: string, t: string, r: string, i: nat, j: nat, cs: set<char>, ds: set<char>)
    requires IsTrimmed(s, t, i, cs) && IsTrimmed(t, r, j, ds)
    ensures IsTrimmed(s, r, i + j, cs + ds)
  {
    assert t == s[i..i + |t|];
    assert r == t[j..j + |r|];
    forall k | 0 <= k < |r| ensures r[k] == s[i + j + k] {
      assert r[k] == t[j + k];
    }
    assert r == s[i + j..i + j + |r|];
    forall k | 0 <= k < i + j ensures s[k] in cs + ds {
      if k >= i { assert s[k] == t[k - i]; }
    }
    forall k | i + j + |r| <= k < |s| ensures s[k] in cs + ds {
      if k < i + |t| { assert s[k] == t[k - i]; }
    }
  }

  /** `clean_text`: strip whitespace, then strip quote characters. */
  function CleanText(text: string): string {
    Strip(Strip(text, Whitespace), Quotes)
  }

  /** Where the cleaned text starts within the input. */
  function CleanStart(text: string): nat {
    StripStart(text, Whitespace) + StripStart(Strip(text, Whitespace), Quotes)
  }

  /**
   * The cleaned text is a slice of the input cut out by dropping only
   * whitespace and quotes at either end, and it neither starts nor ends with
   * a quote.
   */
  lemma CleanTextTrims(text: string)
    ensures IsTrimmed(text, CleanText(text), CleanStart(text), Whitespace + Quotes)
    ensures var r := CleanText(text); r == [] || (r[0] !in Quotes && r[|r| - 1] !in Quotes)
  {
    StripTwice(text, Whitespace, Quotes);
  }

  /** Stripping `cs` and then `ds` cuts a slice out of `s`, as one strip of both would. */
  lemma StripTwice(s: string, cs: set<char>, ds: set<char>)
    ensures var t := Strip(s, cs);
      IsTrimmed(s, Strip(t, ds), StripStart(s, cs) + StripStart(t, ds), cs + ds)
    ensures var r := Strip(Strip(s, cs), ds); r == [] || (r[0] !in ds && r[|r| - 1] !in ds)
  {
    var t := Strip(s, cs);
    StripTrims(s, cs);
    StripTrims(t, ds);
    TrimmedTwice(s, t, Strip(t, ds), StripStart(s, cs), StripStart(t, ds), cs, ds);
  }

  /** The index of the first terminator in `s`, or `|s|` when there is none. */
  function FirstTerminator(s: string): (k: nat)
    ensures k <= |s|
    ensures k < |s| ==> IsTerminator(s[k])
    ensures forall j :: 0 <= j < k ==> !IsTerminator(s[j])
  {
    if s == [] || IsTerminator(s[0]) then 0 else 1 + FirstTerminator(s[1..])
  }

  /** One match of the pattern `[^.!?]+[.!?]`. */
  predicate IsMatch(m: string) {
    && |m| >= 2
    && IsTerminator(m[|m| - 1])
    && forall k :: 0 <= k < |m| - 1 ==> !IsTerminator(m[k])
  }

  /**
   * The matches `re.findall` returns for `[^.!?]+[.!?]`, left to right. No
   * match starts at a terminator, so the scan moves past it. From any other
   * position the greedy run of non-terminators extends to the next
   * terminator, which the match then includes; when no terminator follows,
   * no match can start anywhere in the rest of the text.
   */
  function Matches(s: string): (ms: seq<string>)
    ensures forall k :: 0 <= k < |ms| ==> IsMatch(ms[k])
    decreases |s|
  {
    if s == [] then []
    else if IsTerminator(s[0]) then Matches(s[1..])
    else
      var k := FirstTerminator(s);
      if k == |s| then [] else [s[..k + 1]] + Matches(s[k + 1..])
  }

  /**
   * A segment returned by the splitter: it ends in a terminator, holds no
   * other terminator and does not start with whitespace.
   */
  predicate IsSentence(seg: string) {
    && |seg| >= 1
    && IsTerminator(seg[|seg| - 1])
    && (forall k :: 0 <= k < |seg| - 1 ==> !IsTerminator(seg[k]))
    && seg[0] !in Whitespace
  }

  /** Stripping a match removes only leading whitespace, and what is left is a sentence. */
  lemma StripMatch(m: string)
    requires IsMatch(m)
    ensures IsSentence(Strip(m, Whitespace))
  {
    var t := TrimLeft(m, Whitespace);
    TrimLeftSuffix(m, Whitespace);
    assert m[|m| - 1] !in Whitespace;
    assert |t| >= 1;
    assert t[|t| - 1] == m[|m| - 1];
    assert TrimRight(t, Whitespace) == t;
    forall k | 0 <= k < |t| - 1 ensures !IsTerminator(t[k]) {
      assert t[k] == m[|m| - |t| + k];
    }
  }

  /** Each string of `ms` with its surrounding whitespace stripped. */
  function StripEach(ms: seq<string>): seq<string> {
    seq(|ms|, k requires 0 <= k < |ms| => Strip(ms[k], Whitespace))
  }

  /** `split_sentences`: every regex match, stripped of surrounding whitespace. */
  function SplitSentences(text: string): seq<string> {
    StripEach(Matches(text))
  }

  /** Every piece `split_sentences` returns is a sentence. */
  lemma SplitSentencesAreSentences(text: string)
    ensures var r := SplitSentences(text); forall k :: 0 <= k < |r| ==> IsSentence(r[k])
  {
    var ms := Matches(text);
    forall k | 0 <= k < |ms| ensures IsSentence(Strip(ms[k], Whitespace)) {
      StripMatch(ms[k]);
    }
  }

  /**
   * The number of sentence ends in `s`: positions holding a terminator right
   * after a character that is not one.
   */
  function SentenceEnds(s: string): nat
    decreases |s|
  {
    if |s| < 2 then 0
    else (if !IsTerminator(s[0]) && IsTerminator(s[1]) then 1 else 0) + SentenceEnds(s[1..])
  }

  /** A run of `k >= 1` non-terminators closed by a terminator holds exactly one sentence end. */
  lemma {:induction false} SentenceEndsAfterRun(s: string, k: nat)
    requires 1 <= k < |s| && IsTerminator(s[k])
    requires forall j :: 0 <= j < k ==> !IsTerminator(s[j])
    ensures SentenceEnds(s) == 1 + SentenceEnds(s[k + 1..])
  {
    if k > 1 {
      SentenceEndsAfterRun(s[1..], k - 1);
      assert s[1..][k..] == s[k + 1..];
    } else {
      assert s[1..][1..] == s[2..];
    }
  }

  /** Text without a terminator holds no sentence end. */
  lemma {:induction false} SentenceEndsNone(s: string)
    requires forall j :: 0 <= j < |s| ==> !IsTerminator(s[j])
    ensures SentenceEnds(s) == 0
  {
    if |s| >= 2 {
      SentenceEndsNone(s[1..]);
    }
  }

  /** There is one match per sentence end. */
  lemma {:induction false} MatchesCount(s: string)
    ensures |Matches(s)| == SentenceEnds(s)
    decreases |s|
  {
    if s == [] {
    } else if IsTerminator(s[0]) {
      MatchesCount(s[1..]);
    } else {
      var k := FirstTerminator(s);
      if k == |s| {
        SentenceEndsNone(s);
      } else {
        MatchesCount(s[k + 1..]);
        SentenceEndsAfterRun(s, k);
      }
    }
  }

  /** `split_sentences` returns one segment per sentence end of the text. */
  lemma SplitSentencesCount(text: string)
    ensures |SplitSentences(text)| == SentenceEnds(text)
  {
    MatchesCount(text);
  }

  /** Text without any terminator yields no segment. */
  lemma NoTerminatorNoSentences(text: string)
    requires forall j :: 0 <= j < |text| ==> !IsTerminator(text[j])
    ensures SplitSentences(text) == []
  {
    SentenceEndsNone(text);
    SplitSentencesCount(text);
  }

  /** `s` is empty or ends in a terminator, so no sentence is left open at its end. */
  predicate EndsClosed(s: string) {
    s == [] || IsTerminator(s[|s| - 1])
  }

  /** Text that is empty or ends in a terminator splits independently of what follows it. */
  lemma {:induction false} MatchesAppend(p: string, t: string)
    requires EndsClosed(p)
    ensures Matches(p + t) == Matches(p) + Matches(t)
    decreases |p|
  {
    if p == [] {
      assert p + t == t;
    } else if IsTerminator(p[0]) {
      MatchesAppendSkip(p, t);
      MatchesAppend(p[1..], t);
    } else {
      var k := MatchesAppendRun(p, t);
      MatchesAppend(p[k + 1..], t);
    }
  }

  /** The step of `MatchesAppend` that moves past a leading terminator. */
  lemma MatchesAppendSkip(p: string, t: string)
    requires p != [] && IsTerminator(p[0]) && EndsClosed(p)
    ensures EndsClosed(p[1..])
    ensures Matches(p + t) == Matches(p[1..] + t)
    ensures Matches(p) == Matches(p[1..])
  {
    var pt := p + t;
    assert pt[0] == p[0];
    assert pt[1..] == p[1..] + t;
  }

  /** The step of `MatchesAppend` that takes one match out of a run closed inside `p`. */
  lemma MatchesAppendRun(p: string, t: string) returns (k: nat)
    requires p != [] && !IsTerminator(p[0]) && EndsClosed(p)
    ensures k < |p| && EndsClosed(p[k + 1..])
    ensures Matches(p + t) == [p[..k + 1]] + Matches(p[k + 1..] + t)
    ensures Matches(p) == [p[..k + 1]] + Matches(p[k + 1..])
  {
    var pt := p + t;
    k := FirstTerminator(p);
    assert pt[0] == p[0];
    FirstTerminatorPrefix(p, t);
    assert pt[..k + 1] == p[..k + 1];
    assert pt[k + 1..] == p[k + 1..] + t;
  }

  /** Appending text does not move a terminator that is already there. */
  lemma {:induction false} FirstTerminatorPrefix(p: string, t: string)
    requires FirstTerminator(p) < |p|
    ensures FirstTerminator(p + t) == FirstTerminator(p)
  {
    if !IsTerminator(p[0]) {
      assert (p + t)[1..] == p[1..] + t;
      FirstTerminatorPrefix(p[1..], t);
    }
  }

  /**
   * A maximal run of non-terminators closed by its terminator is matched
   * whole: the match holds exactly that text.
   */
  lemma MatchOfSentence(m: string)
    requires IsMatch(m)
    ensures Matches(m) == [m]
  {
    assert FirstTerminator(m) == |m| - 1;
    assert m[..|m|] == m && m[|m|..] == [];
  }

  /** Text made only of terminators holds no match. */
  lemma {:induction false} TerminatorsNoMatch(s: string)
    requires forall j :: 0 <= j < |s| ==> IsTerminator(s[j])
    ensures Matches(s) == []
    decreases |s|
  {
    if s != [] {
      TerminatorsNoMatch(s[1..]);
    }
  }

  /**
   * The scan, one match at a time: skipped terminators, then a run closed by
   * its terminator, which is the next match word for word, then the rest.
   */
  lemma MatchesStep(t: string, m: string, r: string)
    requires forall j :: 0 <= j < |t| ==> IsTerminator(t[j])
    requires IsMatch(m)
    ensures Matches(t + m + r) == [m] + Matches(r)
  {
    MatchesAppend(t, m + r);
    MatchesAppend(m, r);
    TerminatorsNoMatch(t);
    MatchOfSentence(m);
    assert t + m + r == t + (m + r);
  }

  /** Segments of text that ends in a terminator come first, in order, when more text follows. */
  lemma SplitSentencesAppend(p: string, t: string)
    requires EndsClosed(p)
    ensures SplitSentences(p + t) == SplitSentences(p) + SplitSentences(t)
  {
    MatchesAppend(p, t);
    StripEachAppend(Matches(p), Matches(t));
  }

  /** Stripping each element commutes with concatenation. */
  lemma StripEachAppend(a: seq<string>, b: seq<string>)
    ensures StripEach(a + b) == StripEach(a) + StripEach(b)
  {
  }

  /** Text after the last terminator is never returned. */
  lemma SplitSentencesDropsTail(p: string, t: string)
    requires EndsClosed(p)
    requires forall j :: 0 <= j < |t| ==> !IsTerminator(t[j])
    ensures SplitSentences(p + t) == SplitSentences(p)
  {
    SplitSentencesAppend(p, t);
    NoTerminatorNoSentences(t);
  }

  /** A terminator right after a terminator produces nothing: `"Hi!!"` gives only `"Hi!"`. */
  lemma RepeatedTerminator()
    ensures SplitSentences("Hi!!") == ["Hi!"]
  {
    var s := "Hi!!";
    assert Matches(s) == ["Hi!"] by {
      assert FirstTerminator(s[2..]) == 0;
      assert FirstTerminator(s[1..]) == 1;
      assert FirstTerminator(s) == 2;
      assert s[..3] == "Hi!" && s[3..] == "!";
      assert Matches("!") == [];
    }
    assert Strip("Hi!", Whitespace) == "Hi!" by {
      assert 'H' !in Whitespace && '!' !in Whitespace;
      assert TrimLeft("Hi!", Whitespace) == "Hi!";
    }
  }

  // ---------------------------------------------------------------------------
  // Part 2. Turns: build_history_for and build_turn_commands
  // ---------------------------------------------------------------------------

  /** The two speakers of the dialogue, written "A" and "B" in the program. */
  datatype Speaker = A | B

  /** The speaker who answers `r`. */
  function Other(r: Speaker): Speaker {
    if r == A then B else A
  }

  function SpeakerName(r: Speaker): string {
    if r == A then "A" else "B"
  }

  /** One entry of the dialogue history. */
  datatype Message = Message(role: Speaker, content: string)

  /** Roles of the chat completion request. */
  datatype ApiRole = User | Assistant

  datatype ApiMessage = ApiMessage(role: ApiRole, content: string)

  /**
   * `result` is `history` seen from `role`: same length and order, same
   * contents, and an entry is the assistant's exactly when `role` said it.
   */
  predicate IsHistoryFor(result: seq<ApiMessage>, role: Speaker, history: seq<Message>) {
    && |result| == |history|
    && forall i :: 0 <= i < |history| ==>
         && result[i].content == history[i].content
         && (result[i].role == Assistant <==> history[i].role == role)
  }

  /** `build_history_for`: map the A/B history onto user/assistant messages for `role`. */
  method BuildHistoryFor(role: Speaker, history: seq<Message>) returns (result: seq<ApiMessage>)
    ensures IsHistoryFor(result, role, history)
  {
    result := [];
    for i := 0 to |history|
      invariant IsHistoryFor(result, role, history[..i])
    {
      var mapped := if history[i].role == role then Assistant else User;
      result := result + [ApiMessage(mapped, history[i].content)];
    }
    assert history[..|history|] == history;
  }

  /** One step of playback. A `Pause` names the command that the repeat key replays. */
  datatype Command =
    | Print(content: string)
    | Speak(file: string)
    | Pause(repeat: Command)
    | Cleanup(file: string)

  /** Every pause of `q` replays a `Speak`. */
  predicate WellFormedQueue(q: seq<Command>) {
    forall k :: 0 <= k < |q| ==> (q[k].Pause? ==> q[k].repeat.Speak?)
  }

  /** The displayed line `"{role}: {text}"`. */
  function Line(role: Speaker, text: string): string {
    SpeakerName(role) + ": " + text
  }

  /** The decimal numeral of `n`, as an f-string writes an `int`. */
  function Decimal(n: nat): string {
    if n < 10 then ["0123456789"[n]] else Decimal(n / 10) + ["0123456789"[n % 10]]
  }

  /** A numeral is a non-empty string of digits, of two or more digits from ten on. */
  lemma {:induction false} DecimalDigits(n: nat)
    ensures |Decimal(n)| >= 1 && (n >= 10 ==> |Decimal(n)| >= 2)
    ensures forall k :: 0 <= k < |Decimal(n)| ==> '0' <= Decimal(n)[k] <= '9'
  {
    if n >= 10 {
      DecimalDigits(n / 10);
    }
  }

  /** Different numbers have different numerals. */
  lemma {:induction false} DecimalInjective(m: nat, n: nat)
    requires Decimal(m) == Decimal(n)
    ensures m == n
  {
    DecimalDigits(m);
    DecimalDigits(n);
    if m >= 10 && n >= 10 {
      var dm, dn := Decimal(m), Decimal(n);
      assert dm[..|dm| - 1] == Decimal(m / 10);
      assert dn[..|dn| - 1] == Decimal(n / 10);
      DecimalInjective(m / 10, n / 10);
      assert "0123456789"[m % 10] == "0123456789"[n % 10];
    }
  }

  /** The audio file of sentence `i` of turn `idx`: `tmp_{idx}_{i}.mp3`. */
  function FileName(idx: nat, i: nat): string {
    "tmp_" + Decimal(idx) + "_" + Decimal(i) + ".mp3"
  }

  /** Audio file names never collide: the turn and sentence indices can be read back. */
  lemma FileNameInjective(idx: nat, i: nat, idx': nat, i': nat)
    requires FileName(idx, i) == FileName(idx', i')
    ensures idx == idx' && i == i'
  {
    var f, g := FileName(idx, i), FileName(idx', i');
    var m := Decimal(idx) + "_" + Decimal(i);
    var n := Decimal(idx') + "_" + Decimal(i');
    assert f == "tmp_" + m + ".mp3" && g == "tmp_" + n + ".mp3";
    assert m == f[4..|f| - 4] && n == g[4..|g| - 4];
    DecimalDigits(idx);
    DecimalDigits(idx');
    SplitAtUnderscore(Decimal(idx), Decimal(i), Decimal(idx'), Decimal(i'));
    DecimalInjective(idx, idx');
    DecimalInjective(i, i');
  }

  /** Two numerals joined by an underscore can be split back apart. */
  lemma SplitAtUnderscore(a: string, b: string, c: string, d: string)
    requires forall k :: 0 <= k < |a| ==> '0' <= a[k] <= '9'
    requires forall k :: 0 <= k < |c| ==> '0' <= c[k] <= '9'
    requires a + "_" + b == c + "_" + d
    ensures a == c && b == d
  {
    var m := a + "_" + b;
    FirstUnderscore(a, b);
    FirstUnderscore(c, d);
    assert |a| == |c|;
    assert a == m[..|a|] && c == m[..|c|];
    assert b == m[|a| + 1..] && d == m[|c| + 1..];
  }

  /** In a numeral followed by an underscore, the first underscore is right after the numeral. */
  lemma FirstUnderscore(a: string, b: string)
    requires forall k :: 0 <= k < |a| ==> '0' <= a[k] <= '9'
    ensures (a + "_" + b)[|a|] == '_'
    ensures forall k :: 0 <= k < |a| ==> (a + "_" + b)[k] != '_'
  {
  }

  /** The four commands of one sentence: show it, play it, wait (repeatable), delete the file. */
  function SentenceCommands(role: Speaker, sentence: string, file: string): seq<Command> {
    [Print(Line(role, sentence)), Speak(file), Pause(Speak(file)), Cleanup(file)]
  }

  /** The concatenation of `gs`, in order. */
  function Flatten<T>(gs: seq<seq<T>>): seq<T>
    decreases |gs|
  {
    if gs == [] then [] else Flatten(gs[..|gs| - 1]) + gs[|gs| - 1]
  }

  /** The command groups of `sentences`, the i-th one using file `tmp_{idx}_{i}.mp3`. */
  function SentenceGroups(role: Speaker, sentences: seq<string>, idx: nat): seq<seq<Command>> {
    seq(|sentences|, i requires 0 <= i < |sentences| => SentenceCommands(role, sentences[i], FileName(idx, i)))
  }

  /** The batch `build_turn_commands(role, text, idx)` returns. */
  function TurnCommands(role: Speaker, text: string, idx: nat): seq<Command> {
    [Print(Line(role, text))] + Flatten(SentenceGroups(role, SplitSentences(text), idx))
  }

  /** Groups of four flatten to four elements each, group `i` at positions `4i .. 4i+3`. */
  lemma {:induction false} FlattenFours<T>(gs: seq<seq<T>>, i: nat)
    requires forall j :: 0 <= j < |gs| ==> |gs[j]| == 4
    requires i < |gs|
    ensures |Flatten(gs)| == 4 * |gs|
    ensures Flatten(gs)[4 * i..4 * i + 4] == gs[i]
    decreases |gs|
  {
    var n := |gs| - 1;
    var front := gs[..n];
    FlattenFoursLength(front);
    if i < n {
      FlattenFours(front, i);
      SliceOfAppend(Flatten(front), gs[n], 4 * i, 4 * i + 4);
    } else {
      assert (Flatten(front) + gs[n])[4 * i..4 * i + 4] == gs[n];
    }
  }

  /** Groups of four flatten to four elements each. */
  lemma {:induction false} FlattenFoursLength<T>(gs: seq<seq<T>>)
    requires forall j :: 0 <= j < |gs| ==> |gs[j]| == 4
    ensures |Flatten(gs)| == 4 * |gs|
    decreases |gs|
  {
    if gs != [] {
      FlattenFoursLength(gs[..|gs| - 1]);
    }
  }

  /** A slice that ends inside the first part of a concatenation is a slice of that part. */
  lemma SliceOfAppend<T>(a: seq<T>, b: seq<T>, lo: nat, hi: nat)
    requires lo <= hi <= |a|
    ensures (a + b)[lo..hi] == a[lo..hi]
  {
  }

  /**
   * A turn compiles to `1 + 4n` commands for its `n` sentences: first the
   * whole line, then for sentence `i`, at positions `1+4i .. 4+4i`, its line,
   * its audio, a pause that replays that audio, and the file's removal.
   */
  lemma TurnCommandsLayout(role: Speaker, text: string, idx: nat)
    ensures |TurnCommands(role, text, idx)| == 1 + 4 * |SplitSentences(text)|
    ensures TurnCommands(role, text, idx)[0] == Print(Line(role, text))
    ensures forall i :: 0 <= i < |SplitSentences(text)| ==>
      TurnCommands(role, text, idx)[1 + 4 * i..5 + 4 * i]
        == SentenceCommands(role, SplitSentences(text)[i], FileName(idx, i))
  {
    var ss := SplitSentences(text);
    var gs := SentenceGroups(role, ss, idx);
    var cs := TurnCommands(role, text, idx);
    assert cs == [Print(Line(role, text))] + Flatten(gs);
    FlattenFoursLength(gs);
    forall i | 0 <= i < |ss|
      ensures cs[1 + 4 * i..5 + 4 * i] == SentenceCommands(role, ss[i], FileName(idx, i))
    {
      FlattenFours(gs, i);
      SliceAfterHead(Print(Line(role, text)), Flatten(gs), 4 * i, 4 * i + 4);
      SentenceGroupAt(role, ss, idx, i);
    }
  }

  /** Group `i` is sentence `i`'s four commands. */
  lemma SentenceGroupAt(role: Speaker, ss: seq<string>, idx: nat, i: nat)
    requires i < |ss|
    ensures SentenceGroups(role, ss, idx)[i] == SentenceCommands(role, ss[i], FileName(idx, i))
  {
  }

  /** Slicing behind a one-element head is slicing the tail. */
  lemma SliceAfterHead<T>(x: T, s: seq<T>, lo: nat, hi: nat)
    requires lo <= hi <= |s|
    ensures ([x] + s)[lo + 1..hi + 1] == s[lo..hi]
  {
  }

  /** Every pause of a flattened list of sentence groups replays a `Speak`. */
  lemma {:induction false} FlattenWellFormed(gs: seq<seq<Command>>)
    requires forall j :: 0 <= j < |gs| ==> WellFormedQueue(gs[j])
    ensures WellFormedQueue(Flatten(gs))
    decreases |gs|
  {
    if gs != [] {
      FlattenWellFormed(gs[..|gs| - 1]);
    }
  }

  /** Every pause of a compiled turn replays a `Speak`. */
  lemma TurnCommandsWellFormed(role: Speaker, text: string, idx: nat)
    ensures WellFormedQueue(TurnCommands(role, text, idx))
  {
    FlattenWellFormed(SentenceGroups(role, SplitSentences(text), idx));
  }

  /** The synthesis requests of a turn: sentence `i` into `tmp_{idx}_{i}.mp3`, in order. */
  function SpeechRequests(sentences: seq<string>, idx: nat): seq<Effect> {
    seq(|sentences|, i requires 0 <= i < |sentences| => Synthesize(sentences[i], FileName(idx, i)))
  }

  /**
   * `build_turn_commands`: compile one turn. Besides the commands, it returns
   * the `text_to_speech` calls it makes, one per sentence in order; whether a
   * call succeeds does not change the commands.
   */
  method BuildTurnCommands(role: Speaker, text: string, idx: nat)
    returns (commands: seq<Command>, synthesized: seq<Effect>)
    ensures commands == TurnCommands(role, text, idx)
    ensures synthesized == SpeechRequests(SplitSentences(text), idx)
  {
    commands := [Print(Line(role, text))];
    synthesized := [];
    var sentences := SplitSentences(text);
    assert SentenceGroups(role, sentences[..0], idx) == [];
    assert SpeechRequests(sentences[..0], idx) == [];
    for i := 0 to |sentences|
      invariant commands == [Print(Line(role, text))] + Flatten(SentenceGroups(role, sentences[..i], idx))
      invariant synthesized == SpeechRequests(sentences[..i], idx)
    {
      var filename := FileName(idx, i);
      synthesized := synthesized + [Synthesize(sentences[i], filename)];
      commands := commands + SentenceCommands(role, sentences[i], filename);
      BuildStep(role, text, sentences, idx, i);
    }
    assert sentences[..|sentences|] == sentences;
  }

  /** One pass of the loop of `BuildTurnCommands` extends both outputs by sentence `i`. */
  lemma BuildStep(role: Speaker, text: string, ss: seq<string>, idx: nat, i: nat)
    requires i < |ss|
    ensures [Print(Line(role, text))] + Flatten(SentenceGroups(role, ss[..i + 1], idx))
         == [Print(Line(role, text))] + Flatten(SentenceGroups(role, ss[..i], idx)) + SentenceCommands(role, ss[i], FileName(idx, i))
    ensures SpeechRequests(ss[..i + 1], idx) == SpeechRequests(ss[..i], idx) + [Synthesize(ss[i], FileName(idx, i))]
  {
    SentenceGroupsSnoc(role, ss, idx, i);
    SpeechRequestsSnoc(ss, idx, i);
  }


  /** The requests of one more sentence end with that sentence's request. */
  lemma SpeechRequestsSnoc(ss: seq<string>, idx: nat, i: nat)
    requires i < |ss|
    ensures SpeechRequests(ss[..i + 1], idx) == SpeechRequests(ss[..i], idx) + [Synthesize(ss[i], FileName(idx, i))]
  {
  }

  /** The groups of one more sentence end with that sentence's group. */
  lemma SentenceGroupsSnoc(role: Speaker, ss: seq<string>, idx: nat, i: nat)
    requires i < |ss|
    ensures var gs := SentenceGroups(role, ss[..i + 1], idx);
      && gs[..i] == SentenceGroups(role, ss[..i], idx)
      && gs[i] == SentenceCommands(role, ss[i], FileName(idx, i))
      && Flatten(gs) == Flatten(SentenceGroups(role, ss[..i], idx)) + SentenceCommands(role, ss[i], FileName(idx, i))
  {
  }

  /** The `Remove` effects of running just the `Cleanup` commands of `q`, in queue order. */
  function Removals(q: seq<Command>): seq<Effect>
    decreases |q|
  {
    if q == [] then []
    else
      var c := q[|q| - 1];
      Removals(q[..|q| - 1]) + (if c.Cleanup? then [Remove(c.file)] else [])
  }

  /** The removals of two queue stretches, one after the other. */
  lemma {:induction false} RemovalsAppend(a: seq<Command>, b: seq<Command>)
    ensures Removals(a + b) == Removals(a) + Removals(b)
    decreases |b|
  {
    if b == [] {
      assert a + b == a;
    } else {
      var n := |b| - 1;
      assert (a + b)[..|a + b| - 1] == a + b[..n];
      RemovalsAppend(a, b[..n]);
    }
  }

  /** Removing sentence `i`'s file for `i` below `n`, in order. */
  function FileRemovals(idx: nat, n: nat): seq<Effect> {
    seq(n, i requires 0 <= i < n => Remove(FileName(idx, i)))
  }

  /** Running only the cleanups of a sentence group list removes each sentence's file once, in order. */
  lemma {:induction false} GroupRemovals(role: Speaker, ss: seq<string>, idx: nat)
    ensures Removals(Flatten(SentenceGroups(role, ss, idx))) == FileRemovals(idx, |ss|)
    decreases |ss|
  {
    if ss != [] {
      var n := |ss| - 1;
      var f := FileName(idx, n);
      var front := Flatten(SentenceGroups(role, ss[..n], idx));
      SentenceGroupsSnoc(role, ss, idx, n);
      assert ss[..n + 1] == ss;
      assert Flatten(SentenceGroups(role, ss, idx)) == front + SentenceCommands(role, ss[n], f);
      GroupRemovals(role, ss[..n], idx);
      RemovalsAppend(front, SentenceCommands(role, ss[n], f));
      GroupRemoval(role, ss[n], f);
      FileRemovalsSnoc(idx, n);
    }
  }

  /** One more sentence adds the removal of its file at the end. */
  lemma FileRemovalsSnoc(idx: nat, n: nat)
    ensures FileRemovals(idx, n + 1) == FileRemovals(idx, n) + [Remove(FileName(idx, n))]
  {
  }

  /** The cleanup of one sentence's group removes that sentence's file. */
  lemma GroupRemoval(role: Speaker, sentence: string, file: string)
    ensures Removals(SentenceCommands(role, sentence, file)) == [Remove(file)]
  {
    var g := SentenceCommands(role, sentence, file);
    assert g[..1][..0] == [] && g[..2][..1] == g[..1] && g[..3][..2] == g[..2] && g[..4][..3] == g[..3];
    assert Removals(g[..1]) == [];
    assert Removals(g[..2]) == [];
    assert Removals(g[..3]) == [];
    assert g[..4] == g;
  }

  /**
   * Executing just the cleanups of a whole compiled turn removes the file of
   * every sentence, `tmp_{idx}_0.mp3` first, each exactly once.
   */
  lemma TurnRemovals(role: Speaker, text: string, idx: nat)
    ensures Removals(TurnCommands(role, text, idx)) == FileRemovals(idx, |SplitSentences(text)|)
  {
    var gs := SentenceGroups(role, SplitSentences(text), idx);
    RemovalsAppend([Print(Line(role, text))], Flatten(gs));
    assert Removals([Print(Line(role, text))]) == [];
    GroupRemovals(role, SplitSentences(text), idx);
  }

  // ---------------------------------------------------------------------------
  // Part 3. The command deque: do_command and popleft
  // ---------------------------------------------------------------------------

  /** The keys `get_key` returns: space (repeat) and newline (next). */
  type Key = c: char | c == ' ' || c == '\n' witness ' '

  const RepeatKey: Key := ' '
  const AdvanceKey: Key := '\n'

  /** The hint shown at the first pause of the session, and the prompt shown at every later one. */
  const LongPrompt: string := "[press space to repeat, enter for next]> "
  const ShortPrompt: string := "> "

  /** What the program does to the outside world, in the order it does it. */
  datatype Effect =
    | Display(content: string)                // a separator line, then the content
    | Prompt(text: string)                    // the pause prompt, before the key is read
    | Play(file: string)                      // playback of a file that exists and holds at least 100 bytes
    | SkipInvalid(file: string)               // the warning printed instead of playing
    | Remove(file: string)                    // an attempt to delete the file; a missing file is ignored
    | Synthesize(text: string, file: string)  // a text-to-speech request written to the file
    | Ask(messages: seq<ApiMessage>)          // a chat completion request with this history
    | Exit                                    // the closing line after an interrupt

  /** What `do_command` pushes back onto the front of the deque. */
  function Reinserted(c: Command, key: Key): seq<Command> {
    if c.Pause? && key == RepeatKey then [c.repeat, c] else []
  }

  /** The deque after popping its front command and executing it with `key` at hand. */
  function NextQueue(q: seq<Command>, key: Key): seq<Command>
    requires q != []
  {
    Reinserted(q[0], key) + q[1..]
  }

  /**
   * The effects of `do_command(c)`: `firstPrompt` tells whether no pause has
   * prompted yet, `audioOk` whether the audio file exists and is big enough.
   */
  function CommandEffects(c: Command, firstPrompt: bool, audioOk: bool): seq<Effect> {
    match c
    case Print(content) => [Display(content)]
    case Speak(file) => if audioOk then [Play(file)] else [SkipInvalid(file)]
    case Pause(_) => [Prompt(if firstPrompt then LongPrompt else ShortPrompt)]
    case Cleanup(file) => [Remove(file)]
  }

  /** Executing a command keeps every pause of the deque replaying a `Speak`. */
  lemma NextQueueWellFormed(q: seq<Command>, key: Key)
    requires q != [] && WellFormedQueue(q)
    ensures WellFormedQueue(NextQueue(q, key))
  {
    var r := NextQueue(q, key);
    forall k | 0 <= k < |r| && r[k].Pause? ensures r[k].repeat.Speak? {
      if q[0].Pause? && key == RepeatKey {
        if k >= 2 { assert r[k] == q[k - 1]; }
      } else {
        assert r[k] == q[k + 1];
      }
    }
  }

  /**
   * Pops and executes commands from the front, reading the next key only at a
   * pause, as `get_key` is called only there. The run stops when the deque
   * is empty or when a pause comes up with no key left: the executed
   * commands, in order, and what is left of the deque.
   */
  function Run(q: seq<Command>, keys: seq<Key>): (seq<Command>, seq<Command>)
    decreases |keys|, |q|
  {
    if q == [] then ([], q)
    else if q[0].Pause? then
      if keys == [] then ([], q)
      else
        var (done, left) := Run(NextQueue(q, keys[0]), keys[1..]);
        ([q[0]] + done, left)
    else
      var (done, left) := Run(q[1..], keys);
      ([q[0]] + done, left)
  }

  /** The number of pauses in `q`. */
  function PauseCount(q: seq<Command>): nat
    decreases |q|
  {
    if q == [] then 0 else (if q[0].Pause? then 1 else 0) + PauseCount(q[1..])
  }

  /**
   * Without the repeat key the deque is a plain FIFO: given one Enter per
   * pause of `q`, the run executes `q` in order and stops at the pause that
   * follows it (or at the end), leaving the rest untouched.
   */
  lemma {:induction false} AdvanceIsFifo(q: seq<Command>, rest: seq<Command>, keys: seq<Key>)
    requires forall k :: 0 <= k < |keys| ==> keys[k] == AdvanceKey
    requires PauseCount(q) == |keys|
    requires rest == [] || rest[0].Pause?
    ensures Run(q + rest, keys) == (q, rest)
    decreases |q|
  {
    if q == [] {
      assert q + rest == rest;
    } else {
      var qr := q + rest;
      assert qr[0] == q[0] && qr[1..] == q[1..] + rest;
      if q[0].Pause? {
        assert NextQueue(qr, keys[0]) == q[1..] + rest;
      }
      AdvanceIsFifo(q[1..], rest, if q[0].Pause? then keys[1..] else keys);
      assert [q[0]] + q[1..] == q;
    }
  }

  /** `n` presses of the space key. */
  function Spaces(n: nat): seq<Key> {
    if n == 0 then [] else [RepeatKey] + Spaces(n - 1)
  }

  /** What a pause `p` answered with `n` spaces and then Enter executes: `p`, its replay, `p`, …, `p`. */
  function Replays(p: Command, n: nat): seq<Command>
    requires p.Pause?
  {
    if n == 0 then [p] else [p, p.repeat] + Replays(p, n - 1)
  }

  /** The replays alternate the pause and its replay, `2n+1` commands starting and ending with the pause. */
  lemma {:induction false} ReplaysShape(p: Command, n: nat)
    requires p.Pause?
    ensures |Replays(p, n)| == 2 * n + 1
    ensures forall k :: 0 <= k < 2 * n + 1 ==> Replays(p, n)[k] == if k % 2 == 0 then p else p.repeat
  {
    if n > 0 {
      ReplaysShape(p, n - 1);
      var r := Replays(p, n);
      forall k | 2 <= k < 2 * n + 1
        ensures r[k] == if k % 2 == 0 then p else p.repeat
      {
        assert r[k] == Replays(p, n - 1)[k - 2];
      }
    }
  }

  /**
   * At a pause `p` at the front, `n` spaces and then Enter replay `p`'s audio
   * `n` times and then go on with the rest of the deque as if the pause had
   * been answered with Enter straight away.
   */
  lemma {:induction false} RepeatThenAdvance(p: Command, rest: seq<Command>, n: nat, more: seq<Key>)
    requires p.Pause? && p.repeat.Speak?
    ensures var (done, left) := Run(rest, more);
      Run([p] + rest, Spaces(n) + [AdvanceKey] + more) == (Replays(p, n) + done, left)
  {
    var q := [p] + rest;
    var keys := Spaces(n) + [AdvanceKey] + more;
    assert q[0] == p && q[1..] == rest;
    if n == 0 {
      assert keys == [AdvanceKey] + more;
      assert keys[0] == AdvanceKey && keys[1..] == more;
      assert NextQueue(q, AdvanceKey) == rest;
      var (done, left) := Run(rest, more);
      assert Run(q, keys) == ([p] + done, left);
    } else {
      var keys' := Spaces(n - 1) + [AdvanceKey] + more;
      assert keys == [RepeatKey] + keys';
      var q1 := [p.repeat, p] + rest;
      assert NextQueue(q, RepeatKey) == q1;
      assert q1[0] == p.repeat && q1[1..] == q;
      RepeatThenAdvance(p, rest, n - 1, more);
      var (done, left) := Run(rest, more);
      assert Run(q1, keys') == ([p.repeat] + (Replays(p, n - 1) + done), left);
      assert keys[0] == RepeatKey && keys[1..] == keys';
      assert Run(q, keys) == ([p] + ([p.repeat] + (Replays(p, n - 1) + done)), left);
      assert [p] + ([p.repeat] + (Replays(p, n - 1) + done)) == Replays(p, n) + done;
    }
  }

  // ---------------------------------------------------------------------------
  // Part 4. The playback loop of `repl`: prefetch, drain, execute, interrupt
  // ---------------------------------------------------------------------------

  /** A compiled turn waiting in the pending slot (`next_turn_data`). */
  datatype Batch = Batch(role: Speaker, idx: nat, commands: seq<Command>)

  /** A prefetch may start only while the deque holds fewer commands than this. */
  const LowWaterMark: nat := 4

  /** The speaker of turn `i`: the dialogue starts with A and alternates. */
  function TurnRole(i: nat): Speaker {
    if i % 2 == 0 then A else B
  }

  /** The answer to turn `i` is turn `i + 1`. */
  lemma OtherTurnRole(i: nat)
    ensures Other(TurnRole(i)) == TurnRole(i + 1)
  {
  }

  /** A history whose turns alternate from A, and which holds at least the opening line. */
  predicate Alternates(history: seq<Message>) {
    && |history| >= 1
    && forall i :: 0 <= i < |history| ==> history[i].role == TurnRole(i)
  }

  /** Appending the answer of the right speaker keeps the turns alternating. */
  lemma AlternatesAppend(history: seq<Message>, m: Message)
    requires Alternates(history) && m.role == TurnRole(|history|)
    ensures Alternates(history + [m])
  {
  }

  /** A filled slot holds the latest turn of the history, compiled under its own index. */
  predicate PendingLatest(history: seq<Message>, pending: Option<Batch>) {
    pending.Some? ==>
      && |history| >= 1
      && var last := |history| - 1;
         pending.value == Batch(TurnRole(last), last, TurnCommands(TurnRole(last), history[last].content, last))
  }

  /** Compiling the answer just appended to the history fills the slot as the invariant wants. */
  lemma PendingLatestAppend(history: seq<Message>, m: Message, commands: seq<Command>)
    requires m.role == TurnRole(|history|)
    requires commands == TurnCommands(m.role, m.content, |history|)
    ensures PendingLatest(history + [m], Some(Batch(m.role, |history|, commands)))
  {
    assert (history + [m])[|history|] == m;
  }

  /**
   * The turn bookkeeping of the loop: turns alternate from A; `queued`
   * turns have entered the deque, the last of them spoken by `role`; at most
   * one prefetch is in flight, only while the slot is empty, for the turn
   * after the history; a filled slot holds the compiled latest turn.
   */
  ghost predicate TurnState(history: seq<Message>, pending: Option<Batch>, queued: nat, role: Speaker,
                            prefetching: bool, nextRole: Speaker, nextIdx: nat)
  {
    && Alternates(history)
    && queued == |history| - (if pending.Some? then 1 else 0)
    && queued >= 1
    && role == TurnRole(queued - 1)
    && (prefetching ==> pending.None? && nextRole == TurnRole(|history|) && nextIdx == |history|)
    && PendingLatest(history, pending)
  }

  /** Completing a prefetch with the compiled answer keeps the bookkeeping. */
  lemma CompleteKeepsTurns(history: seq<Message>, queued: nat, role: Speaker, nextRole: Speaker, nextIdx: nat,
                           text: string, commands: seq<Command>)
    requires TurnState(history, None, queued, role, true, nextRole, nextIdx)
    requires commands == TurnCommands(nextRole, text, nextIdx)
    ensures TurnState(history + [Message(nextRole, text)], Some(Batch(nextRole, nextIdx, commands)),
                      queued, role, false, nextRole, nextIdx)
  {
    AlternatesAppend(history, Message(nextRole, text));
    PendingLatestAppend(history, Message(nextRole, text), commands);
  }

  /**
   * The state `repl` keeps across iterations of its `while True` loop, with
   * the module-level `first_prompt` flag, and the output the program
   * produced so far. A background prefetch is one atomic step, `Complete`.
   */
  class Session {
    /** `output_queue`: the command deque, front first. */
    var queue: seq<Command>
    /** A background prefetch is in flight. */
    var prefetching: bool
    /** `next_turn_data`: a compiled turn waiting for the deque to empty. */
    var pending: Option<Batch>
    /** The speaker of the turn being played. */
    var role: Speaker
    /** The dialogue so far, including a turn still being prefetched once it is generated. */
    var history: seq<Message>
    /** No pause has prompted yet. */
    var firstPrompt: bool
    /** The role and index a running prefetch captured when it started. */
    var nextRole: Speaker
    var nextIdx: nat
    /**
     * Everything the program did to the outside world: the foreground's
     * effects in order, with each background completion's effects between
     * two loop passes.
     */
    var log: seq<Effect>
    /**
     * The loop has ended on an interrupt. Only a prefetch already in flight
     * can still complete afterwards.
     */
    var exited: bool
    /** The number of turns put into the deque so far (the first one included). */
    ghost var queued: nat

    /** The invariant of the loop: the turn bookkeeping holds and every pause in the deque replays a `Speak`. */
    ghost predicate Valid()
      reads this
    {
      Turns() && WellFormedQueue(queue)
    }

    /** The turn bookkeeping, which executing commands does not touch. */
    ghost predicate Turns()
      reads this`history, this`pending, this`queued, this`role, this`prefetching, this`nextRole, this`nextIdx
    {
      TurnState(history, pending, queued, role, prefetching, nextRole, nextIdx)
    }

    /** The start of `repl`: speaker A's opening line becomes turn 0 and fills the deque. */
    constructor (firstMessage: string)
      ensures Valid()
      ensures history == [Message(A, firstMessage)] && role == A
      ensures queue == TurnCommands(A, firstMessage, 0)
      ensures !prefetching && pending == None && firstPrompt && !exited
      ensures log == SpeechRequests(SplitSentences(firstMessage), 0)
    {
      var commands, synthesized := BuildTurnCommands(A, firstMessage, 0);
      history := [Message(A, firstMessage)];
      role := A;
      queue := commands;
      prefetching := false;
      pending := None;
      firstPrompt := true;
      nextRole := B;
      nextIdx := 1;
      log := synthesized;
      exited := false;
      queued := 1;
      TurnCommandsWellFormed(A, firstMessage, 0);
    }

    /**
     * Lines 160-174: start a prefetch when none is in flight, the slot is
     * empty and the deque runs low. It captures the answering role and the
     * next turn index, the length of the history.
     */
    method TryPrefetch() returns (started: bool)
      requires Valid() && !exited
      modifies this`prefetching, this`nextRole, this`nextIdx
      ensures Valid()
      ensures started == (!old(prefetching) && pending.None? && |queue| < LowWaterMark)
      ensures started ==> prefetching && nextRole == Other(role) && nextIdx == |history|
      ensures !started ==> prefetching == old(prefetching) && nextRole == old(nextRole) && nextIdx == old(nextIdx)
    {
      started := !prefetching && pending.None? && |queue| < LowWaterMark;
      if started {
        prefetching := true;
        nextRole := Other(role);
        nextIdx := |history|;
        OtherTurnRole(|history| - 1);
      }
    }

    /**
     * Lines 165-172, the background prefetch as one step: ask for the next
     * line with the history seen from the answering role (the model's reply
     * is `response`, which `clean_text` tidies), append it to the history,
     * compile it, then fill the slot and clear the flag together.
     */
    method Complete(response: string) returns (messages: seq<ApiMessage>)
      requires Valid() && prefetching
      modifies this`history, this`pending, this`prefetching, this`log
      ensures Valid()
      ensures history == old(history) + [Message(nextRole, CleanText(response))]
      ensures pending == Some(Batch(nextRole, nextIdx, TurnCommands(nextRole, CleanText(response), nextIdx)))
      ensures !prefetching
      ensures IsHistoryFor(messages, nextRole, old(history))
      ensures log == old(log) + [Ask(messages)] + SpeechRequests(SplitSentences(CleanText(response)), nextIdx)
    {
      messages := BuildHistoryFor(nextRole, history);
      var text := CleanText(response);
      var commands, synthesized := BuildTurnCommands(nextRole, text, nextIdx);
      CompleteKeepsTurns(history, queued, role, nextRole, nextIdx, text, commands);
      log := log + [Ask(messages)] + synthesized;
      history := history + [Message(nextRole, text)];
      pending := Some(Batch(nextRole, nextIdx, commands));
      prefetching := false;
    }

    /**
     * Lines 176-181: once the deque is empty, move the pending turn into it
     * in order, empty the slot and make the turn's speaker current.
     */
    method TryDrain() returns (drained: bool)
      requires Valid() && !exited
      modifies this`queue, this`pending, this`role, this`queued
      ensures Valid()
      ensures drained == (old(queue) == [] && old(pending).Some?)
      ensures drained ==> && queue == old(pending).value.commands
                          && role == old(pending).value.role
                          && pending == None
                          && old(pending).value.idx == old(queued)
                          && old(pending).value.role == TurnRole(old(queued))
                          && queued == old(queued) + 1
      ensures !drained ==> queue == old(queue) && pending == old(pending) && role == old(role) && queued == old(queued)
    {
      drained := queue == [] && pending.Some?;
      if drained {
        var batch := pending.value;
        role := batch.role;
        queue := queue + batch.commands;
        pending := None;
        queued := queued + 1;
        TurnCommandsWellFormed(batch.role, history[|history| - 1].content, batch.idx);
      }
    }

    /**
     * `do_command`: show a line, play a file (skipped with a warning when
     * `audioOk` says it is missing or too small), prompt at a pause and act
     * on `key`, or delete a file. At a pause the repeat key pushes the pause
     * and then its replay onto the front of the deque.
     */
    method DoCommand(command: Command, key: Key, audioOk: bool)
      modifies this`queue, this`firstPrompt, this`log
      ensures queue == Reinserted(command, key) + old(queue)
      ensures log == old(log) + CommandEffects(command, old(firstPrompt), audioOk)
      ensures firstPrompt == (old(firstPrompt) && !command.Pause?)
    {
      match command
      case Print(content) =>
        log := log + [Display(content)];
      case Speak(file) =>
        log := log + (if audioOk then [Play(file)] else [SkipInvalid(file)]);
      case Pause(repeat) =>
        var prompt := if firstPrompt then LongPrompt else ShortPrompt;
        firstPrompt := false;
        log := log + [Prompt(prompt)];
        if key == RepeatKey {
          queue := [repeat, command] + queue;
        }
      case Cleanup(file) =>
        log := log + [Remove(file)];
    }

    /** Lines 183-185: pop the front command and execute it. */
    method ExecuteNext(key: Key, audioOk: bool)
      requires Valid() && !exited && queue != []
      modifies this`queue, this`firstPrompt, this`log
      ensures Valid()
      ensures queue == NextQueue(old(queue), key)
      ensures log == old(log) + CommandEffects(old(queue)[0], old(firstPrompt), audioOk)
      ensures firstPrompt == (old(firstPrompt) && !old(queue)[0].Pause?)
    {
      NextQueueWellFormed(queue, key);
      var command := queue[0];
      queue := queue[1..];
      DoCommand(command, key, audioOk);
    }

    /**
     * One pass of the `while True` loop (lines 160-187): maybe start a
     * prefetch; then drain the slot into an empty deque and start over, or
     * execute the front command, or (nothing to do) sleep.
     */
    method Iteration(key: Key, audioOk: bool)
      requires Valid() && !exited
      modifies this
      ensures Valid() && !exited
      ensures prefetching == (old(prefetching) || (old(pending).None? && |old(queue)| < LowWaterMark))
      ensures history == old(history)
      ensures old(queue) == [] && old(pending).Some? ==>
                && queue == old(pending).value.commands && pending == None
                && role == old(pending).value.role && log == old(log)
      ensures old(queue) != [] ==>
                && queue == NextQueue(old(queue), key) && pending == old(pending) && role == old(role)
                && log == old(log) + CommandEffects(old(queue)[0], old(firstPrompt), audioOk)
                && firstPrompt == (old(firstPrompt) && !old(queue)[0].Pause?)
      ensures old(queue) == [] && old(pending).None? ==> queue == [] && pending == None && log == old(log)
      ensures old(queue) == [] ==> firstPrompt == old(firstPrompt)
      ensures prefetching && !old(prefetching) ==> nextRole == Other(old(role)) && nextIdx == |old(history)|
      ensures !(prefetching && !old(prefetching)) ==> nextRole == old(nextRole) && nextIdx == old(nextIdx)
    {
      var _ := TryPrefetch();
      var drained := TryDrain();
      if !drained && queue != [] {
        ExecuteNext(key, audioOk);
      }
    }

    /**
     * Lines 189-193, on KeyboardInterrupt: execute just the `Cleanup`
     * commands still in the deque, in deque order, then say goodbye; the loop is over.
     */
    method Interrupt()
      requires !exited
      modifies this`queue, this`firstPrompt, this`log, this`exited
      ensures exited
      ensures queue == old(queue) && firstPrompt == old(firstPrompt)
      ensures log == old(log) + Removals(queue) + [Exit]
    {
      var snapshot := queue;
      for i := 0 to |snapshot|
        invariant queue == snapshot && firstPrompt == old(firstPrompt)
        invariant log == old(log) + Removals(snapshot[..i])
      {
        var command := snapshot[i];
        assert snapshot[..i + 1][..i] == snapshot[..i];
        if command.Cleanup? {
          DoCommand(command, RepeatKey, true);
        }
      }
      assert snapshot[..|snapshot|] == snapshot;
      log := log + [Exit];
      exited := true;
    }
  }
}
