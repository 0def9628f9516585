/** Key lookup in a block of the configuration file: the skip-ahead scan over the characters
    between the braces, and the value that follows the colon.

    SetBlock has already found the block: s is the index of its '{' and e of its '}'. */
module ConfigParser {
  import opened Wrappers

  datatype Failure = NoKey | NoColon | NoValue | NotNumber | NoRoom

  datatype Result<+T> = Ok(value: T) | Err(error: Failure)

  predicate IsLineEnd(c: char) {
    c == '\r' || c == '\n'
  }

  /** Characters that end a word in FindWord. */
  predicate IsDelimiter(c: char) {
    c == ' ' || c == ':' || IsLineEnd(c) || c == '{'
  }

  /** A block with a delimiter before its closing brace: no word runs into the brace. */
  predicate Fenced(buf: string, s: int, e: int) {
    0 <= s < e < |buf| && IsDelimiter(buf[e - 1])
  }

  /** A block whose closing brace starts its own line. */
  predicate Block(buf: string, s: int, e: int) {
    0 <= s < e < |buf| && IsLineEnd(buf[e - 1])
  }

  // ----- Declarative lookup -----

  /** The first place at or after p whose character satisfies stop, or the end of the text. */
  function Seek(buf: string, p: nat, stop: char -> bool): (q: nat)
    requires p <= |buf|
    ensures p <= q <= |buf|
    decreases |buf| - p
  {
    if p == |buf| || stop(buf[p]) then p else Seek(buf, p + 1, stop)
  }

  lemma {:induction false} SeekFacts(buf: string, p: nat, stop: char -> bool)
    requires p <= |buf|
    ensures var q := Seek(buf, p, stop);
      (forall i :: p <= i < q ==> !stop(buf[i])) && (q < |buf| ==> stop(buf[q]))
    decreases |buf| - p
  {
    if p < |buf| && !stop(buf[p]) {
      SeekFacts(buf, p + 1, stop);
    }
  }

  lemma {:induction false} SeekIs(buf: string, p: nat, q: nat, stop: char -> bool)
    requires p <= q < |buf| && stop(buf[q])
    requires forall i :: p <= i < q ==> !stop(buf[i])
    ensures Seek(buf, p, stop) == q
    decreases q - p
  {
    if p < q {
      SeekIs(buf, p + 1, q, stop);
    }
  }

  /** Where the run of characters from p ends: at the next delimiter. */
  function RunEnd(buf: string, p: nat): (q: nat)
    requires p <= |buf|
    ensures p <= q <= |buf|
  {
    Seek(buf, p, IsDelimiter)
  }

  lemma RunEndFacts(buf: string, p: nat)
    requires p <= |buf|
    ensures forall i :: p <= i < RunEnd(buf, p) ==> !IsDelimiter(buf[i])
    ensures RunEnd(buf, p) < |buf| ==> IsDelimiter(buf[RunEnd(buf, p)])
  {
    SeekFacts(buf, p, IsDelimiter);
  }

  /** The run of characters from p to the next delimiter. */
  predicate IsRun(buf: string, p: nat, name: string)
    requires p <= |buf|
  {
    RunEnd(buf, p) - p == |name| && buf[p..RunEnd(buf, p)] == name
  }

  /** The run from p is the key. Nothing is said about the character before p: that is the
      comparison the code makes. */
  predicate Matches(buf: string, p: nat, name: string)
    requires p <= |buf|
  {
    name != "" && IsRun(buf, p, name)
  }

  ghost predicate NoMatch(buf: string, from: int, to: int, name: string)
    requires 0 <= from && to <= |buf|
  {
    forall q :: from <= q < to ==> !Matches(buf, q, name)
  }

  /** p is the first place of the block where the key matches. */
  ghost predicate FirstMatch(buf: string, s: int, e: int, name: string, p: int)
    requires 0 <= s <= e <= |buf|
  {
    s <= p < e && Matches(buf, p, name) && NoMatch(buf, s, p, name)
  }

  /** The first match, or None where there is none. */
  ghost predicate Finds(buf: string, s: int, e: int, name: string, at: Option<int>)
    requires 0 <= s <= e <= |buf|
  {
    match at
    case Some(p) => FirstMatch(buf, s, e, name, p)
    case None => NoMatch(buf, s, e, name)
  }

  lemma RunEndInBlock(buf: string, s: int, e: int, p: nat)
    requires Fenced(buf, s, e) && p < e
    ensures RunEnd(buf, p) <= e - 1
  {
    RunEndFacts(buf, p);
  }

  /** The run from any place inside a run ends where it ends. */
  lemma {:induction false} RunEndShared(buf: string, p: nat, q: nat)
    requires p <= |buf| && p <= q <= RunEnd(buf, p)
    ensures RunEnd(buf, q) == RunEnd(buf, p)
    decreases q - p
  {
    if p < q {
      RunEndShared(buf, p + 1, q);
    }
  }

  // ----- The scan -----

  /** *alpha of FindAlpha: the first character of a C string. */
  function FirstChar(name: string): char {
    if name == "" then '\0' else name[0]
  }

  method FindAlpha(buf: string, start: int, e: int, name: string) returns (found: bool, p: int)
    requires 0 <= start <= e < |buf|
    ensures found ==> start <= p < e && buf[p] == FirstChar(name) && forall i :: start <= i < p ==> buf[i] != FirstChar(name)
    ensures !found ==> p == start && forall i :: start <= i < e ==> buf[i] != FirstChar(name)
  {
    var cur := start;
    while cur != e
      invariant start <= cur <= e
      invariant forall i :: start <= i < cur ==> buf[i] != FirstChar(name)
      decreases e - cur
    {
      if buf[cur] == FirstChar(name) {
        return true, cur;
      }
      cur := cur + 1;
    }
    return false, start;
  }

  /** On a run of the key's length the pointer moves to the run's last character, whether it is
      the key or not; on any other run it stays. */
  method FindWord(buf: string, name: string, first: int, ghost s: int, ghost e: int) returns (found: bool, p: int)
    requires Fenced(buf, s, e) && 0 <= first < e
    ensures found <==> IsRun(buf, first, name)
    ensures p == if RunEnd(buf, first) - first == |name| then RunEnd(buf, first) - 1 else first
  {
    var cur := first;
    RunEndInBlock(buf, s, e, first);
    RunEndFacts(buf, first);
    while buf[cur] != ' ' && buf[cur] != ':' && !IsLineEnd(buf[cur]) && buf[cur] != '{'
      invariant first <= cur <= RunEnd(buf, first)
      decreases RunEnd(buf, first) - cur
    {
      cur := cur + 1;
    }
    assert cur == RunEnd(buf, first);
    cur := cur - 1;
    var length := cur - first + 1;
    if length != |name| {
      return false, first;
    }
    return buf[first..first + length] == name, cur;
  }

  /** The first c at or after cur, or e. */
  function Alpha(buf: string, cur: int, e: int, c: char): (p: int)
    requires 0 <= cur <= e <= |buf|
    ensures cur <= p <= e && (p < e ==> buf[p] == c)
    decreases e - cur
  {
    if cur == e || buf[cur] == c then cur else Alpha(buf, cur + 1, e, c)
  }

  /** Where one pass of the lookup loop leaves cur when the key is not at p. */
  function NextCur(buf: string, p: nat, name: string): (next: int)
    requires p < |buf| && buf[p] == FirstChar(name)
    ensures next > p
  {
    (if RunEnd(buf, p) - p == |name| then RunEnd(buf, p) - 1 else p) + 1
  }

  /** How the lookup loop ends: at the key, at the closing brace, or beyond the brace, which the
      loop, testing for equality with e, then never meets. */
  datatype Outcome = Found(last: int) | NotFound | Escaped

  function Scan(buf: string, cur: int, e: int, name: string): Outcome
    requires 0 <= cur <= e < |buf|
    decreases e - cur
  {
    if cur == e then NotFound
    else
      var p := Alpha(buf, cur, e, FirstChar(name));
      if p == e then Scan(buf, cur + 1, e, name)
      else if Matches(buf, p, name) then
        if RunEnd(buf, p) <= e then Found(RunEnd(buf, p) - 1) else Escaped
      else if NextCur(buf, p, name) <= e then Scan(buf, NextCur(buf, p, name), e, name)
      else Escaped
  }

  /** The body of the lookup loop with its cur++. */
  method Pass(buf: string, cur: int, e: int, name: string) returns (found: bool, next: int)
    requires Fenced(buf, 0, e) && 0 <= cur < e
    ensures found ==> Scan(buf, cur, e, name) == Found(next)
    ensures !found ==> cur < next <= e && Scan(buf, cur, e, name) == Scan(buf, next, e, name)
  {
    var alphaCheck, p := FindAlpha(buf, cur, e, name);
    ScanPass(buf, cur, e, name, if alphaCheck then p else e);
    next := p;
    if alphaCheck {
      var wordCheck;
      RunEndInBlock(buf, 0, e, p);
      wordCheck, next := FindWord(buf, name, p, 0, e);
      if wordCheck {
        return true, next;
      }
      assert next + 1 == NextCur(buf, p, name);
    }
    return false, next + 1;
  }

  /** The lookup loop shared by GetValue and GetString: the index of the key's last character.
      The scan ends, stays in the block, and finds the first match. */
  method FindKey(buf: string, s: int, e: int, name: string) returns (last: Option<int>)
    requires Fenced(buf, s, e)
    ensures Finds(buf, s, e, name, if last.Some? then Some(last.value - |name| + 1) else None)
    ensures Scan(buf, s, e, name) == if last.Some? then Found(last.value) else NotFound
  {
    ScanFinds(buf, s, e, name);
    var cur := s;
    while cur != e
      invariant s <= cur <= e
      invariant Scan(buf, cur, e, name) == Scan(buf, s, e, name)
      decreases e - cur
    {
      var found;
      found, cur := Pass(buf, cur, e, name);
      if found {
        return Some(cur);
      }
    }
    return None;
  }

  /** One pass of the loop, given where its FindAlpha ends. */
  lemma ScanPass(buf: string, cur: int, e: int, name: string, p: int)
    requires Fenced(buf, 0, e) && 0 <= cur < e && cur <= p <= e
    requires p < e ==> buf[p] == FirstChar(name)
    requires forall i :: cur <= i < p ==> buf[i] != FirstChar(name)
    ensures p == e ==> Scan(buf, cur, e, name) == Scan(buf, cur + 1, e, name)
    ensures p < e ==>
      && (IsRun(buf, p, name) ==> Scan(buf, cur, e, name) == Found(RunEnd(buf, p) - 1))
      && (!IsRun(buf, p, name) ==>
            NextCur(buf, p, name) <= e && Scan(buf, cur, e, name) == Scan(buf, NextCur(buf, p, name), e, name))
  {
    AlphaIs(buf, cur, e, FirstChar(name), p);
    if p < e {
      RunEndInBlock(buf, 0, e, p);
    }
  }

  /** Where the scan of a fenced block ends: at the first match, or at the brace when there is
      none. */
  lemma {:induction false} ScanFinds(buf: string, cur: int, e: int, name: string)
    requires Fenced(buf, 0, e) && 0 <= cur <= e
    ensures match Scan(buf, cur, e, name)
      case Found(last) => FirstMatch(buf, cur, e, name, last - |name| + 1)
      case NotFound => NoMatch(buf, cur, e, name)
      case Escaped => false
    decreases e - cur
  {
    if cur < e {
      PassSkips(buf, cur, e, name);
      var p := Alpha(buf, cur, e, FirstChar(name));
      if p == e {
        ScanFinds(buf, cur + 1, e, name);
      } else if !Matches(buf, p, name) {
        ScanFinds(buf, NextCur(buf, p, name), e, name);
      }
    }
  }

  /** What one pass leaves behind holds no match. */
  lemma PassSkips(buf: string, cur: int, e: int, name: string)
    requires Fenced(buf, 0, e) && 0 <= cur < e
    ensures var p := Alpha(buf, cur, e, FirstChar(name));
      if p == e then NoMatch(buf, cur, e, name)
      else if Matches(buf, p, name) then NoMatch(buf, cur, p, name) && RunEnd(buf, p) < e
      else NextCur(buf, p, name) <= e && NoMatch(buf, cur, NextCur(buf, p, name), name)
  {
    var p := Alpha(buf, cur, e, FirstChar(name));
    AlphaFacts(buf, cur, e, FirstChar(name));
    NoMatchBefore(buf, cur, p, name);
    if p < e {
      RunEndInBlock(buf, 0, e, p);
      if !Matches(buf, p, name) {
        NoMatchInside(buf, p, NextCur(buf, p, name) - 1, name);
      }
    }
  }

  lemma {:induction false} AlphaFacts(buf: string, cur: int, e: int, c: char)
    requires 0 <= cur <= e <= |buf|
    ensures forall i :: cur <= i < Alpha(buf, cur, e, c) ==> buf[i] != c
    decreases e - cur
  {
    if cur < e && buf[cur] != c {
      AlphaFacts(buf, cur + 1, e, c);
    }
  }

  lemma {:induction false} AlphaIs(buf: string, cur: int, e: int, c: char, p: int)
    requires 0 <= cur <= p <= e <= |buf| && (p < e ==> buf[p] == c)
    requires forall i :: cur <= i < p ==> buf[i] != c
    ensures Alpha(buf, cur, e, c) == p
    decreases p - cur
  {
    if cur < p {
      AlphaIs(buf, cur + 1, e, c, p);
    }
  }

  /** A key cannot start at a character other than its first. */
  lemma NoMatchBefore(buf: string, from: int, to: int, name: string)
    requires 0 <= from <= to <= |buf|
    requires forall i :: from <= i < to ==> buf[i] != FirstChar(name)
    ensures NoMatch(buf, from, to, name)
  {
  }

  /** What the skip leaves out cannot match: inside a run of the key's length every later start
      has a shorter run. */
  lemma NoMatchInside(buf: string, p: int, last: int, name: string)
    requires 0 <= p <= |buf| && !Matches(buf, p, name)
    requires last == p || (RunEnd(buf, p) - p == |name| && last == RunEnd(buf, p) - 1)
    ensures forall q :: p <= q <= last && q <= |buf| ==> !Matches(buf, q, name)
  {
    forall q | p < q <= last && q <= |buf| ensures !Matches(buf, q, name) {
      RunEndShared(buf, p, q);
    }
  }

  // ----- When the brace is part of a word -----

  /** A key that fits the run through the brace in its first character and its length, and holds
      a delimiter, so that it matches nowhere: the scan reaches that run and steps over it. */
  lemma {:induction false} ScanEscapes(buf: string, cur: int, e: int, name: string)
    requires 0 <= cur < e < |buf| && buf[e] == '}' && !IsDelimiter(buf[e - 1])
    requires |name| == RunEnd(buf, e - 1) - (e - 1) >= 2
    requires name[0] == buf[e - 1] && name[|name| - 1] == ':'
    ensures Scan(buf, cur, e, name) == Escaped
    decreases e - cur
  {
    AlphaReaches(buf, cur, e, name[0]);
    var p := Alpha(buf, cur, e, name[0]);
    DelimiterNeverMatches(buf, p, name);
    RunEndFacts(buf, p);
    if NextCur(buf, p, name) < e {
      ScanEscapes(buf, NextCur(buf, p, name), e, name);
    }
  }

  lemma AlphaReaches(buf: string, cur: int, e: int, c: char)
    requires 0 <= cur < e <= |buf| && buf[e - 1] == c
    ensures Alpha(buf, cur, e, c) < e
  {
    AlphaFacts(buf, cur, e, c);
  }

  lemma DelimiterNeverMatches(buf: string, p: nat, name: string)
    requires p <= |buf| && |name| > 0 && IsDelimiter(name[|name| - 1])
    ensures !Matches(buf, p, name)
  {
    RunEndFacts(buf, p);
    assert RunEnd(buf, p) - p == |name| ==> buf[p..RunEnd(buf, p)][|name| - 1] == buf[p + |name| - 1];
  }

  lemma EscapingKey(buf: string, s: int, e: int) returns (name: string)
    requires 0 <= s < e < |buf| && buf[e] == '}' && !IsDelimiter(buf[e - 1])
    ensures Scan(buf, s, e, name) == Escaped
  {
    RunEndFacts(buf, e - 1);
    var run := buf[e - 1..RunEnd(buf, e - 1)];
    name := run[|run| - 1 := ':'];
    ScanEscapes(buf, s, e, name);
  }

  /** The scan of every key stays in the block if and only if the character before the closing
      brace is a delimiter. */
  lemma ScanStaysExactly(buf: string, s: int, e: int)
    requires 0 <= s < e < |buf| && buf[e] == '}'
    ensures IsDelimiter(buf[e - 1]) <==> forall name :: Scan(buf, s, e, name) != Escaped
  {
    if IsDelimiter(buf[e - 1]) {
      forall name ensures Scan(buf, s, e, name) != Escaped {
        ScanFinds(buf, s, e, name);
      }
    } else {
      var name := EscapingKey(buf, s, e);
      assert Scan(buf, s, e, name) == Escaped;
    }
  }

  // ----- Whole words -----

  predicate StartsWord(buf: string, s: int, p: int)
    requires 0 <= s <= p <= |buf|
  {
    p == s || IsDelimiter(buf[p - 1])
  }

  /** A word of the block begins at q. */
  predicate IsWord(buf: string, s: int, q: int)
    requires 0 <= s <= q < |buf|
  {
    StartsWord(buf, s, q) && !IsDelimiter(buf[q])
  }

  /** The word at q ends in the name, or is it. */
  predicate EndsInName(buf: string, q: nat, name: string)
    requires q <= |buf|
  {
    var r := RunEnd(buf, q);
    0 < |name| <= r - q && buf[r - |name|..r] == name
  }

  /** The word at q ends in the key without being the key. */
  predicate EndsInKey(buf: string, q: nat, name: string)
    requires q <= |buf|
  {
    EndsInName(buf, q, name) && |name| < RunEnd(buf, q) - q
  }

  /** The key stands at p as a word of its own. */
  predicate WordMatches(buf: string, s: int, p: int, name: string)
    requires 0 <= s <= p <= |buf|
  {
    Matches(buf, p, name) && StartsWord(buf, s, p)
  }

  /** What a lookup of whole words would return. */
  ghost predicate FindsWord(buf: string, s: int, e: int, name: string, at: Option<int>)
    requires 0 <= s <= e <= |buf|
  {
    match at
    case Some(p) => s <= p < e && WordMatches(buf, s, p, name) && forall q :: s <= q < p ==> !WordMatches(buf, s, q, name)
    case None => forall q :: s <= q < e ==> !WordMatches(buf, s, q, name)
  }

  /** No word before the limit ends in the key without being it. */
  ghost predicate NoLongerWord(buf: string, s: int, limit: int, name: string)
    requires 0 <= s <= limit <= |buf|
  {
    forall q :: s <= q < limit && IsWord(buf, s, q) ==> !EndsInKey(buf, q, name)
  }

  lemma {:induction false} WordAround(buf: string, s: int, p: int) returns (q: int)
    requires 0 <= s <= p < |buf| && !IsDelimiter(buf[p])
    ensures s <= q <= p && IsWord(buf, s, q) && RunEnd(buf, q) == RunEnd(buf, p)
    ensures q == p ==> StartsWord(buf, s, p)
    decreases p - s
  {
    if StartsWord(buf, s, p) {
      q := p;
    } else {
      q := WordAround(buf, s, p - 1);
    }
  }

  /** A match is the end of a word, of a longer one if it is no word of its own. */
  lemma MatchInWord(buf: string, s: int, p: int, name: string) returns (q: int)
    requires 0 <= s <= p < |buf| && Matches(buf, p, name)
    ensures s <= q <= p && IsWord(buf, s, q) && EndsInName(buf, q, name)
    ensures if q == p then StartsWord(buf, s, p) else EndsInKey(buf, q, name)
  {
    RunEndFacts(buf, p);
    q := WordAround(buf, s, p);
  }

  /** Conversely, the end of such a word is a match, and no word begins inside it. */
  lemma WordMatchesName(buf: string, s: int, q: int, name: string) returns (p: int)
    requires 0 <= s <= q < |buf| && IsWord(buf, s, q) && EndsInName(buf, q, name)
    ensures q <= p == RunEnd(buf, q) - |name| < RunEnd(buf, q) && Matches(buf, p, name)
    ensures forall i :: q < i <= p ==> !StartsWord(buf, s, i)
  {
    p := RunEnd(buf, q) - |name|;
    RunEndFacts(buf, q);
    RunEndShared(buf, q, p);
  }

  /** The lookup is the lookup of whole words if and only if no word that stands before the whole
      word (in the whole block, if there is none) ends in the key without being it. */
  lemma WholeWordExactly(buf: string, s: int, e: int, name: string, found: Option<int>, word: Option<int>)
    requires Fenced(buf, s, e) && Finds(buf, s, e, name, found) && FindsWord(buf, s, e, name, word)
    ensures found == word <==> NoLongerWord(buf, s, if word.Some? then word.value else e, name)
  {
    var limit := if word.Some? then word.value else e;
    if NoLongerWord(buf, s, limit, name) {
      if found.Some? && found.value < limit {
        assert !WordMatches(buf, s, found.value, name);
        var _ := MatchInWord(buf, s, found.value, name);
      }
    } else {
      var q :| s <= q < limit && IsWord(buf, s, q) && EndsInKey(buf, q, name);
      RunEndInBlock(buf, s, e, q);
      var p := WordMatchesName(buf, s, q, name);
      assert p < limit;
    }
  }

  // ----- Lines -----

  /** What may stand before the key of a line. */
  predicate IsIndent(c: char) {
    c == ' ' || c == '{'
  }

  /** p is the first word of its line. */
  predicate StartsLine(buf: string, s: int, p: int)
    requires 0 <= s <= p <= |buf|
    decreases p
  {
    p == s || IsLineEnd(buf[p - 1]) || (IsIndent(buf[p - 1]) && StartsLine(buf, s, p - 1))
  }

  /** The first line whose key is name, or None where there is none. */
  ghost predicate FindsLine(buf: string, s: int, e: int, name: string, at: Option<int>)
    requires 0 <= s <= e <= |buf|
  {
    match at
    case Some(p) =>
      && s <= p < e && Matches(buf, p, name) && StartsLine(buf, s, p)
      && forall q :: s <= q < p && Matches(buf, q, name) ==> !StartsLine(buf, s, q)
    case None => forall q :: s <= q < e && Matches(buf, q, name) ==> !StartsLine(buf, s, q)
  }

  /** No word before the limit, keys and values included, ends in the name. */
  ghost predicate NoSuchWord(buf: string, s: int, limit: int, name: string)
    requires 0 <= s <= limit <= |buf|
  {
    forall q :: s <= q < limit && IsWord(buf, s, q) ==> !EndsInName(buf, q, name)
  }

  /** The lookup finds the first line whose key is name (nothing, if there is no such line) if and
      only if no word of the block before that line's key ends in the name. */
  lemma LineExactly(buf: string, s: int, e: int, name: string, found: Option<int>, line: Option<int>)
    requires Fenced(buf, s, e) && Finds(buf, s, e, name, found) && FindsLine(buf, s, e, name, line)
    ensures found == line <==> NoSuchWord(buf, s, if line.Some? then line.value else e, name)
  {
    var limit := if line.Some? then line.value else e;
    if NoSuchWord(buf, s, limit, name) {
      if found.Some? && found.value < limit {
        var _ := MatchInWord(buf, s, found.value, name);
      }
    } else {
      var q :| s <= q < limit && IsWord(buf, s, q) && EndsInName(buf, q, name);
      RunEndInBlock(buf, s, e, q);
      var p := WordMatchesName(buf, s, q, name);
      assert line.Some? ==> StartsWord(buf, s, limit);
      assert p < limit;
    }
  }

  // ----- The value -----

  predicate EndsSearch(c: char) {
    c == ':' || IsLineEnd(c)
  }

  predicate IsNotSpace(c: char) {
    c != ' '
  }

  predicate EndsValue(c: char) {
    c == ' ' || IsLineEnd(c)
  }

  /** The text of the value whose key ends just before p. */
  function TextAfter(buf: string, p: nat): Result<string>
    requires p <= |buf|
  {
    var colon := Seek(buf, p, EndsSearch);
    if colon == |buf| || buf[colon] != ':' then Err(NoColon)
    else if colon + 1 < |buf| && IsLineEnd(buf[colon + 1]) then Err(NoValue)
    else
      var first := Seek(buf, colon + 1, IsNotSpace);
      Ok(buf[first..Seek(buf, first, EndsValue)])
  }

  /** The part after the key that GetValue and GetString share. The line end before the closing
      brace keeps every read inside the block. */
  method ReadText(buf: string, start: int, ghost e: int) returns (text: Result<string>)
    requires 0 <= start < e <= |buf| && IsLineEnd(buf[e - 1])
    ensures text == TextAfter(buf, start)
  {
    var cur := start;
    while !IsLineEnd(buf[cur])
      invariant start <= cur < e
      invariant forall i :: start <= i < cur ==> !EndsSearch(buf[i])
      decreases e - cur
    {
      if buf[cur] == ':' {
        break;
      }
      cur := cur + 1;
    }
    SeekIs(buf, start, cur, EndsSearch);
    if buf[cur] != ':' {
      return Err(NoColon);
    }
    cur := cur + 1;
    if IsLineEnd(buf[cur]) {
      return Err(NoValue);
    }
    ghost var blank := cur;
    while buf[cur] == ' '
      invariant blank <= cur < e
      invariant forall i :: blank <= i < cur ==> !IsNotSpace(buf[i])
      decreases e - cur
    {
      cur := cur + 1;
    }
    SeekIs(buf, blank, cur, IsNotSpace);
    var valend := cur;
    while buf[valend] != ' ' && !IsLineEnd(buf[valend])
      invariant cur <= valend < e
      invariant forall i :: cur <= i < valend ==> !EndsValue(buf[i])
      decreases e - valend
    {
      valend := valend + 1;
    }
    SeekIs(buf, cur, valend, EndsValue);
    valend := valend - 1;
    var length := valend - cur + 1;
    return Ok(buf[cur..cur + length]);
  }

  // ----- Numbers -----

  predicate IsDigit(c: char) {
    '0' <= c <= '9'
  }

  predicate IsBlank(c: char) {
    c == ' ' || c == '\t' || c == '\n' || c == '\r' || c == '\U{0B}' || c == '\U{0C}'
  }

  predicate AllDigits(t: string) {
    forall i :: 0 <= i < |t| ==> IsDigit(t[i])
  }

  function DigitValue(c: char): int {
    c as int - '0' as int
  }

  /** The loop of the C library's atoi: the digits at the front, after the digits read so far. */
  function LeadingDigits(t: string, sofar: nat): nat {
    if t == "" || !IsDigit(t[0]) then sofar else LeadingDigits(t[1..], 10 * sofar + DigitValue(t[0]))
  }

  function Atoi(t: string): int {
    if t == "" then 0
    else if IsBlank(t[0]) then Atoi(t[1..])
    else if t[0] == '-' then 0 - LeadingDigits(t[1..], 0)
    else if t[0] == '+' then LeadingDigits(t[1..], 0)
    else LeadingDigits(t, 0)
  }

  /** What GetValue makes of the text: one character is taken as a digit unseen, and a number that
      reads as zero is refused. */
  function ValueOf(t: string): Result<int> {
    if |t| == 1 then Ok(DigitValue(t[0]))
    else if Atoi(t) == 0 then Err(NotNumber)
    else Ok(Atoi(t))
  }

  /** The number a digit string denotes. */
  function Number(t: string): nat
    requires AllDigits(t)
  {
    if t == "" then 0 else 10 * Number(t[..|t| - 1]) + DigitValue(t[|t| - 1])
  }

  lemma {:induction false} LeadingDigitsSnoc(t: string, c: char, sofar: nat)
    requires AllDigits(t) && IsDigit(c)
    ensures LeadingDigits(t + [c], sofar) == 10 * LeadingDigits(t, sofar) + DigitValue(c)
    decreases |t|
  {
    if t == "" {
      assert LeadingDigits([c], sofar) == LeadingDigits("", 10 * sofar + DigitValue(c)) by {
        assert [c][1..] == "";
      }
    } else {
      assert (t + [c])[1..] == t[1..] + [c];
      LeadingDigitsSnoc(t[1..], c, 10 * sofar + DigitValue(t[0]));
    }
  }

  /** atoi reads a digit string as the number it denotes. */
  lemma {:induction false} AtoiOfDigits(t: string)
    requires AllDigits(t)
    ensures Atoi(t) == LeadingDigits(t, 0) == Number(t)
    decreases |t|
  {
    if t != "" {
      var init := t[..|t| - 1];
      AtoiOfDigits(init);
      LeadingDigitsSnoc(init, t[|t| - 1], 0);
      assert t == init + [t[|t| - 1]];
    }
  }

  lemma {:induction false} ZeroNumber(t: string)
    requires AllDigits(t)
    ensures Number(t) == 0 <==> forall i :: 0 <= i < |t| ==> t[i] == '0'
    decreases |t|
  {
    if t != "" {
      var init := t[..|t| - 1];
      ZeroNumber(init);
      assert forall i :: 0 <= i < |init| ==> init[i] == t[i];
    }
  }

  /** A digit string is read as the number it denotes, except that zero written with more than one
      digit is refused as not a number. */
  lemma DigitsReadExactly(t: string)
    requires AllDigits(t) && t != ""
    ensures ValueOf(t) == Ok(Number(t)) <==> |t| == 1 || exists i :: 0 <= i < |t| && t[i] != '0'
    ensures ValueOf(t) != Ok(Number(t)) ==> ValueOf(t) == Err(NotNumber) && Number(t) == 0
  {
    AtoiOfDigits(t);
    ZeroNumber(t);
    if |t| == 1 {
      assert t[..0] == "";
    }
  }

  // ----- A printed integer is returned unchanged -----

  function DigitChar(d: nat): char
    requires d < 10
  {
    ('0' as int + d) as char
  }

  function Decimal(n: nat): (t: string)
    ensures AllDigits(t) && t != "" && Number(t) == n
    ensures |t| == 1 <==> n < 10
  {
    if n < 10 then assert [DigitChar(n)][..0] == ""; [DigitChar(n)]
    else
      var init := Decimal(n / 10);
      var t := init + [DigitChar(n % 10)];
      assert t[..|t| - 1] == init;
      t
  }

  /** %d */
  function Print(n: int): string {
    if n < 0 then "-" + Decimal(-n) else Decimal(n)
  }

  lemma PrintedValue(n: int)
    ensures ValueOf(Print(n)) == Ok(n)
    ensures forall i :: 0 <= i < |Print(n)| ==> !EndsValue(Print(n)[i])
    ensures Print(n) != ""
  {
    var digits := Decimal(if n < 0 then -n else n);
    AtoiOfDigits(digits);
    if n < 0 {
      assert Print(n)[1..] == digits;
      assert Atoi(Print(n)) == 0 - LeadingDigits(digits, 0);
    } else if n < 10 {
      assert digits[..0] == "";
    }
  }

  /** A line "key gap : pad text": the text stands between first and stop. */
  predicate Line(buf: string, p: nat, colon: nat, first: nat, stop: nat) {
    && p <= colon < first < stop < |buf| && buf[colon] == ':'
    && (forall i :: p <= i < colon ==> !EndsSearch(buf[i]))
    && (forall i :: colon < i < first ==> !IsNotSpace(buf[i]))
    && (forall i :: first <= i < stop ==> !EndsValue(buf[i]))
    && EndsValue(buf[stop])
  }

  lemma TextIsFound(buf: string, p: nat, colon: nat, first: nat, stop: nat)
    requires Line(buf, p, colon, first, stop)
    ensures TextAfter(buf, p) == Ok(buf[first..stop])
  {
    SeekIs(buf, p, colon, EndsSearch);
    SeekIs(buf, colon + 1, first, IsNotSpace);
    SeekIs(buf, first, stop, EndsValue);
  }

  /** Every colon from p on stands behind a line end. */
  ghost predicate NoColonOnLine(buf: string, p: nat) {
    forall i :: p <= i < |buf| && buf[i] == ':' ==> exists j :: p <= j < i && IsLineEnd(buf[j])
  }

  /** colon is the first colon from p on, on the same line. */
  predicate ColonOfLine(buf: string, p: nat, colon: nat) {
    p <= colon < |buf| && buf[colon] == ':' && forall i :: p <= i < colon ==> !EndsSearch(buf[i])
  }

  /** The line ends right behind its first colon. */
  ghost predicate NothingBehindColon(buf: string, p: nat) {
    exists colon: nat :: ColonOfLine(buf, p, colon) && colon + 1 < |buf| && IsLineEnd(buf[colon + 1])
  }

  /** When a value is missing: the line holds no colon, or ends right behind it. A colon followed by
      nothing but blanks is no error, its value is the empty text. */
  lemma TextErrorsExactly(buf: string, p: nat)
    requires p <= |buf|
    ensures TextAfter(buf, p) == Err(NoColon) <==> NoColonOnLine(buf, p)
    ensures TextAfter(buf, p) == Err(NoValue) <==> NothingBehindColon(buf, p)
    ensures TextAfter(buf, p).Err? ==> TextAfter(buf, p).error in {NoColon, NoValue}
  {
    var q := Seek(buf, p, EndsSearch);
    SeekFacts(buf, p, EndsSearch);
    assert q < |buf| && IsLineEnd(buf[q]) ==> NoColonOnLine(buf, p);
    forall colon: nat | ColonOfLine(buf, p, colon) ensures colon == q {
      SeekIs(buf, p, colon, EndsSearch);
    }
    if q < |buf| && buf[q] == ':' {
      assert ColonOfLine(buf, p, q);
    }
  }

  lemma BlankValue(buf: string, p: nat, colon: nat, stop: nat)
    requires ColonOfLine(buf, p, colon) && colon + 1 < stop < |buf| && IsLineEnd(buf[stop])
    requires forall i :: colon < i < stop ==> buf[i] == ' '
    ensures TextAfter(buf, p) == Ok("") && ValueOf("") == Err(NotNumber)
  {
    SeekIs(buf, p, colon, EndsSearch);
    SeekIs(buf, colon + 1, stop, IsNotSpace);
    SeekIs(buf, stop, stop, EndsValue);
    assert buf[stop..stop] == "";
  }

  // ----- The two getters -----

  /** The text of the value that belongs to the first place where the key stands. */
  ghost function KeyText(buf: string, s: int, e: int, name: string): Result<string>
    requires Block(buf, s, e)
  {
    if p :| FirstMatch(buf, s, e, name, p) then TextAfter(buf, p + |name|) else Err(NoKey)
  }

  lemma KeyTextAt(buf: string, s: int, e: int, name: string, p: int)
    requires Block(buf, s, e) && FirstMatch(buf, s, e, name, p)
    ensures p + |name| < e && !NoMatch(buf, s, e, name)
    ensures KeyText(buf, s, e, name) == TextAfter(buf, p + |name|) != Err(NoKey)
  {
    RunEndInBlock(buf, s, e, p);
    assert forall q :: FirstMatch(buf, s, e, name, q) ==> q == p;
  }

  /** The key, then its text: the code the two getters have in common. */
  method FindText(buf: string, s: int, e: int, name: string) returns (text: Result<string>)
    requires Block(buf, s, e)
    ensures text == KeyText(buf, s, e, name)
    ensures text == Err(NoKey) <==> NoMatch(buf, s, e, name)
  {
    var last := FindKey(buf, s, e, name);
    if last.None? {
      return Err(NoKey);
    }
    ghost var p := last.value - |name| + 1;
    assert FirstMatch(buf, s, e, name, p);
    KeyTextAt(buf, s, e, name, p);
    assert last.value + 1 == p + |name|;
    text := ReadText(buf, last.value + 1, e);
  }

  /** The value of a key whose line is well formed. */
  lemma TextOfLine(buf: string, s: int, e: int, name: string, p: int, colon: nat, first: nat, stop: nat)
    requires Block(buf, s, e) && FirstMatch(buf, s, e, name, p) && Line(buf, p + |name|, colon, first, stop)
    ensures KeyText(buf, s, e, name) == Ok(buf[first..stop])
  {
    assert KeyText(buf, s, e, name) == TextAfter(buf, p + |name|) by {
      KeyTextAt(buf, s, e, name, p);
    }
    TextIsFound(buf, p + |name|, colon, first, stop);
  }

  /** The two errors of a key that is there. */
  lemma KeyErrorsExactly(buf: string, s: int, e: int, name: string, p: int)
    requires Block(buf, s, e) && FirstMatch(buf, s, e, name, p)
    ensures KeyText(buf, s, e, name) == Err(NoColon) <==> NoColonOnLine(buf, p + |name|)
    ensures KeyText(buf, s, e, name) == Err(NoValue) <==> NothingBehindColon(buf, p + |name|)
  {
    KeyTextAt(buf, s, e, name, p);
    TextErrorsExactly(buf, p + |name|);
  }

  function ValueIn(text: Result<string>): Result<int> {
    if text.Ok? then ValueOf(text.value) else Err(text.error)
  }

  method GetValue(buf: string, s: int, e: int, name: string) returns (r: Result<int>)
    requires Block(buf, s, e)
    ensures r == ValueIn(KeyText(buf, s, e, name))
    ensures r == Err(NoKey) <==> NoMatch(buf, s, e, name)
  {
    var text := FindText(buf, s, e, name);
    if text.Err? {
      return Err(text.error);
    }
    return ValueOf(text.value);
  }

  /** str receives the text and a terminating NUL, or stays as it was. */
  method GetString(buf: string, s: int, e: int, name: string, str: array<char>, strsize: int) returns (r: Result<()>)
    requires Block(buf, s, e) && strsize <= str.Length
    modifies str
    ensures match KeyText(buf, s, e, name)
      case Err(error) => r == Err(error)
      case Ok(text) => r == if |text| < strsize then Ok(()) else Err(NoRoom)
    ensures r.Ok? ==> var text := KeyText(buf, s, e, name).value;
      str[..|text| + 1] == text + ['\0'] && str[|text| + 1..] == old(str[|text| + 1..])
    ensures r.Err? ==> str[..] == old(str[..])
  {
    var text := FindText(buf, s, e, name);
    if text.Err? {
      return Err(text.error);
    }
    var length := |text.value|;
    if strsize < length + 1 {
      return Err(NoRoom);
    }
    forall i | 0 <= i < length {
      str[i] := text.value[i];
    }
    str[length] := '\0';
    return Ok(());
  }

  /** An integer printed in canonical decimal after the key and a colon is returned unchanged. */
  lemma PrintedIntIsReturned(buf: string, s: int, e: int, name: string, p: int, colon: nat, first: nat, stop: nat, n: int)
    requires Block(buf, s, e) && FirstMatch(buf, s, e, name, p)
    requires Line(buf, p + |name|, colon, first, stop) && buf[first..stop] == Print(n)
    ensures ValueIn(KeyText(buf, s, e, name)) == Ok(n)
  {
    TextOfLine(buf, s, e, name, p, colon, first, stop);
    PrintedValue(n);
  }

  /** The same for the key as a word of its own, under the condition of WholeWordExactly. */
  lemma PrintedIntOfWord(buf: string, s: int, e: int, name: string, p: int, colon: nat, first: nat, stop: nat, n: int)
    requires Block(buf, s, e) && FindsWord(buf, s, e, name, Some(p)) && NoLongerWord(buf, s, p, name)
    requires Line(buf, p + |name|, colon, first, stop) && buf[first..stop] == Print(n)
    ensures ValueIn(KeyText(buf, s, e, name)) == Ok(n)
  {
    forall q | s <= q < p ensures !Matches(buf, q, name) {
      if Matches(buf, q, name) {
        assert !WordMatches(buf, s, q, name);
        var _ := MatchInWord(buf, s, q, name);
      }
    }
    PrintedIntIsReturned(buf, s, e, name, p, colon, first, stop, n);
  }

  /** The same for the first line whose key is name, under the condition of LineExactly. */
  lemma PrintedIntOfLine(buf: string, s: int, e: int, name: string, p: int, colon: nat, first: nat, stop: nat, n: int)
    requires Block(buf, s, e) && FindsLine(buf, s, e, name, Some(p)) && NoSuchWord(buf, s, p, name)
    requires Line(buf, p + |name|, colon, first, stop) && buf[first..stop] == Print(n)
    ensures ValueIn(KeyText(buf, s, e, name)) == Ok(n)
  {
    forall q | s <= q < p ensures !Matches(buf, q, name) {
      if Matches(buf, q, name) {
        var _ := MatchInWord(buf, s, q, name);
      }
    }
    PrintedIntIsReturned(buf, s, e, name, p, colon, first, stop, n);
  }

  /** A value of one character is returned whatever the character is; the result is a digit's
      value only if the character is a digit. */
  lemma LoneCharacterReturned(buf: string, s: int, e: int, name: string, p: int, colon: nat, first: nat)
    requires Block(buf, s, e) && FirstMatch(buf, s, e, name, p)
    requires Line(buf, p + |name|, colon, first, first + 1)
    ensures ValueIn(KeyText(buf, s, e, name)) == Ok(DigitValue(buf[first]))
    ensures 0 <= DigitValue(buf[first]) <= 9 <==> IsDigit(buf[first])
  {
    TextOfLine(buf, s, e, name, p, colon, first, first + 1);
  }

  // ----- Two files -----

  lemma RunIs(buf: string, p: nat, q: nat)
    requires p <= q < |buf| && IsDelimiter(buf[q])
    requires forall i :: p <= i < q ==> !IsDelimiter(buf[i])
    ensures RunEnd(buf, p) == q
  {
    SeekIs(buf, p, q, IsDelimiter);
  }

  const TWO_PORTS := "{\nXPort:1\nPort:2\n}\n"

  lemma TwoPortsRuns(p: nat)
    requires p <= 10
    ensures RunEnd(TWO_PORTS, p) == if p <= 1 then p else if p <= 7 then 7 else if p <= 9 then 9 else 14
  {
    RunIs(TWO_PORTS, p, if p <= 1 then p else if p <= 7 then 7 else if p <= 9 then 9 else 14);
  }

  lemma TwoPortsMatches(p: nat)
    requires p <= 10
    ensures Matches(TWO_PORTS, p, "Port") <==> p == 3 || p == 10
  {
    TwoPortsRuns(p);
    assert TWO_PORTS[3..7] == "Port" && TWO_PORTS[10..14] == "Port";
  }

  lemma TwoPortsFound()
    ensures Block(TWO_PORTS, 0, 17) && FindsWord(TWO_PORTS, 0, 17, "Port", Some(10))
    ensures FirstMatch(TWO_PORTS, 0, 17, "Port", 3)
  {
    forall p: nat | p <= 10 ensures Matches(TWO_PORTS, p, "Port") <==> p == 3 || p == 10 {
      TwoPortsMatches(p);
    }
  }

  /** A key inside a longer word is found first: the lookup of Port returns the value of XPort. */
  lemma LongerWordWins()
    ensures Block(TWO_PORTS, 0, 17) && FindsWord(TWO_PORTS, 0, 17, "Port", Some(10))
    ensures FirstMatch(TWO_PORTS, 0, 17, "Port", 3)
    ensures ValueIn(KeyText(TWO_PORTS, 0, 17, "Port")) == Ok(1)
  {
    TwoPortsFound();
    LoneCharacterReturned(TWO_PORTS, 0, 17, "Port", 3, 7, 8);
  }

  const LETTER := "{\nk:x\n}\n"

  /** A letter is accepted as a number. */
  lemma LetterAccepted()
    ensures Block(LETTER, 0, 6) && ValueIn(KeyText(LETTER, 0, 6, "k")) == Ok(72)
  {
    RunIs(LETTER, 0, 0);
    RunIs(LETTER, 1, 1);
    RunIs(LETTER, 2, 3);
    assert LETTER[2..3] == "k";
    LoneCharacterReturned(LETTER, 0, 6, "k", 2, 3, 4);
  }

  const NAME_FIRST := "{\nName:Port\nPort:1\n}\n"

  lemma NameFirstRuns(p: nat)
    requires p <= 12
    ensures RunEnd(NAME_FIRST, p) == if p <= 1 then p else if p <= 6 then 6 else if p <= 11 then 11 else 16
  {
    RunIs(NAME_FIRST, p, if p <= 1 then p else if p <= 6 then 6 else if p <= 11 then 11 else 16);
  }

  lemma NameFirstMatches(p: nat)
    requires p <= 12
    ensures Matches(NAME_FIRST, p, "Port") <==> p == 7 || p == 12
  {
    NameFirstRuns(p);
    assert NAME_FIRST[7..11] == "Port" && NAME_FIRST[12..16] == "Port" && NAME_FIRST[2..6] == "Name";
  }

  lemma NameFirstFound()
    ensures Block(NAME_FIRST, 0, 19) && FindsLine(NAME_FIRST, 0, 19, "Port", Some(12))
    ensures FirstMatch(NAME_FIRST, 0, 19, "Port", 7)
  {
    forall p: nat | p <= 12 ensures Matches(NAME_FIRST, p, "Port") <==> p == 7 || p == 12 {
      NameFirstMatches(p);
    }
  }

  /** A value that is the name is found first: the lookup of Port fails although the file has the
      line Port:1. */
  lemma ValueWins()
    ensures Block(NAME_FIRST, 0, 19) && FindsLine(NAME_FIRST, 0, 19, "Port", Some(12))
    ensures KeyText(NAME_FIRST, 0, 19, "Port") == Err(NoColon)
  {
    NameFirstFound();
    KeyTextAt(NAME_FIRST, 0, 19, "Port", 7);
    SeekIs(NAME_FIRST, 11, 11, EndsSearch);
  }
}
