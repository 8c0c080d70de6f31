/**
 Comma- and newline-separated lists: the event filter and the endpoint lists.
 */
module Lists {
  predicate IsSeparator(c: char) {
    c == ',' || c == '\n'
  }

  /** What String.prototype.trim removes. */
  predicate IsSpace(c: char) {
    || c in "\t\n\r "
    || c == '\U{000B}' || c == '\U{000C}' || c == '\U{00A0}' || c == '\U{1680}'
    || '\U{2000}' <= c <= '\U{200A}'
    || c == '\U{2028}' || c == '\U{2029}' || c == '\U{202F}' || c == '\U{205F}' || c == '\U{3000}' || c == '\U{FEFF}'
  }

  function TrimLeft(s: string): string {
    if s != "" && IsSpace(s[0]) then TrimLeft(s[1..]) else s
  }

  function TrimRight(s: string): string {
    if s != "" && IsSpace(s[|s| - 1]) then TrimRight(s[..|s| - 1]) else s
  }

  function Trim(s: string): string {
    TrimRight(TrimLeft(s))
  }

  /** How far the text runs before its first separator. */
  function TextLength(s: string): (n: nat)
    ensures n <= |s|
    ensures forall i | 0 <= i < n :: !IsSeparator(s[i])
    ensures n < |s| ==> IsSeparator(s[n])
  {
    if s == "" || IsSeparator(s[0]) then 0 else 1 + TextLength(s[1..])
  }

  /** How far a run of separators reaches. */
  function RunLength(s: string): (n: nat)
    ensures n <= |s|
    ensures s != "" && IsSeparator(s[0]) ==> n > 0
  {
    if s == "" || !IsSeparator(s[0]) then 0 else 1 + RunLength(s[1..])
  }

  /** Splitting at every maximal run of separators. */
  function Split(s: string): (pieces: seq<string>)
    ensures pieces != []
    decreases |s|
  {
    var n := TextLength(s);
    if n == |s| then [s]
    else [s[..n]] + Split(s[n + RunLength(s[n..])..])
  }

  /** The token a piece amounts to, if any. */
  function Word(piece: string): seq<string> {
    if Trim(piece) == "" then [] else [Trim(piece)]
  }

  /** Trims the pieces and drops the empty ones. */
  function Clean(pieces: seq<string>): seq<string> {
    if pieces == [] then [] else Word(pieces[0]) + Clean(pieces[1..])
  }

  function Tokens(s: string): seq<string> {
    Clean(Split(s))
  }

  const DEFAULT_EVENTS := [
    "active", "added", "cleaned", "completed", "deduplicated", "delayed", "drained", "duplicated", "failed", "paused",
    "progress", "removed", "resumed", "retries-exhausted", "stalled", "waiting", "waiting-children"
  ]

  function ParseEventFilter(value: string): seq<string> {
    if value == "" then DEFAULT_EVENTS else Tokens(value)
  }

  // ---------- what a list means, whatever the lengths of its separator runs ----------

  /** Splitting at every single separator instead. */
  function SplitEach(s: string): seq<string>
    decreases |s|
  {
    var n := TextLength(s);
    if n == |s| then [s] else [s[..n]] + SplitEach(s[n + 1..])
  }

  lemma CleanOfOneMore(piece: string, pieces: seq<string>)
    ensures Clean([piece] + pieces) == Word(piece) + Clean(pieces)
  {
    assert ([piece] + pieces)[1..] == pieces;
  }

  lemma {:induction false} CleanOfSum(a: seq<string>, b: seq<string>)
    ensures Clean(a + b) == Clean(a) + Clean(b)
  {
    if a == [] {
      assert a + b == b;
    } else {
      var word, front, back := Word(a[0]), Clean(a[1..]), Clean(b);
      calc {
        Clean(a + b);
        { assert a + b == [a[0]] + (a[1..] + b); }
        Clean([a[0]] + (a[1..] + b));
        { CleanOfOneMore(a[0], a[1..] + b); }
        word + Clean(a[1..] + b);
        { CleanOfSum(a[1..], b); }
        word + (front + back);
        word + front + back;
      }
    }
  }

  lemma {:induction false} LeadingRunIsNothing(s: string)
    ensures Clean(SplitEach(s)) == Clean(SplitEach(s[RunLength(s)..]))
    decreases |s|
  {
    if s != "" && IsSeparator(s[0]) {
      LeadingRunIsNothing(s[1..]);
      assert s[..0] == "" && s[1..][RunLength(s[1..])..] == s[RunLength(s)..];
      CleanOfOneMore("", SplitEach(s[1..]));
    }
  }

  lemma SkipRun(s: string, n: nat)
    requires n < |s| && IsSeparator(s[n])
    ensures n + RunLength(s[n..]) <= |s|
    ensures Clean(SplitEach(s[n + 1..])) == Clean(SplitEach(s[n + RunLength(s[n..])..]))
  {
    LeadingRunIsNothing(s[n + 1..]);
    assert s[n..][1..] == s[n + 1..];
    assert s[n + 1..][RunLength(s[n + 1..])..] == s[n + RunLength(s[n..])..];
  }

  lemma {:induction false} RunsDoNotMatter(s: string)
    ensures Tokens(s) == Clean(SplitEach(s))
    decreases |s|
  {
    var n := TextLength(s);
    if n < |s| {
      var m := n + RunLength(s[n..]);
      CleanOfOneMore(s[..n], SplitEach(s[n + 1..]));
      CleanOfOneMore(s[..n], Split(s[m..]));
      SkipRun(s, n);
      RunsDoNotMatter(s[m..]);
    }
  }

  lemma {:induction false} FirstSeparator(s: string, n: nat)
    requires n < |s| && IsSeparator(s[n]) && forall i | 0 <= i < n :: !IsSeparator(s[i])
    ensures TextLength(s) == n
  {
    if n > 0 {
      FirstSeparator(s[1..], n - 1);
    }
  }

  lemma {:induction false} SplitEachOfSum(a: string, c: char, b: string)
    requires IsSeparator(c)
    ensures SplitEach(a + [c] + b) == SplitEach(a) + SplitEach(b)
    decreases |a|
  {
    var s := a + [c] + b;
    var n := TextLength(a);
    FirstSeparator(s, n);
    if n == |a| {
      assert s[..n] == a && s[n + 1..] == b;
    } else {
      assert s[..n] == a[..n];
      assert s[n + 1..] == a[n + 1..] + [c] + b;
      SplitEachOfSum(a[n + 1..], c, b);
      assert SplitEach(s) == [a[..n]] + (SplitEach(a[n + 1..]) + SplitEach(b));
    }
  }

  /** A separator anywhere cuts the list in two: the tokens are those of the left part, then those of the right. */
  lemma TokensOfSum(a: string, c: char, b: string)
    requires IsSeparator(c)
    ensures Tokens(a + [c] + b) == Tokens(a) + Tokens(b)
  {
    RunsDoNotMatter(a);
    RunsDoNotMatter(b);
    RunsDoNotMatter(a + [c] + b);
    SplitEachOfSum(a, c, b);
    CleanOfSum(SplitEach(a), SplitEach(b));
  }

  predicate SeparatorFree(s: string) {
    forall i | 0 <= i < |s| :: !IsSeparator(s[i])
  }

  /** A text without separators is one token, or none if it is blank. */
  lemma TokensOfText(s: string)
    requires SeparatorFree(s)
    ensures Tokens(s) == Word(s)
  {
    assert TextLength(s) == |s|;
    assert [s] == [s] + [];
    CleanOfOneMore(s, []);
  }

  // ---------- the characters themselves ----------

  /** A comma cuts a list, and so does a line break. */
  lemma CommasAndLinesCut(a: string, b: string)
    ensures Tokens(a + "," + b) == Tokens(a) + Tokens(b)
    ensures Tokens(a + "\n" + b) == Tokens(a) + Tokens(b)
  {
    TokensOfSum(a, ',', b);
    TokensOfSum(a, '\n', b);
    assert a + "," + b == a + [','] + b && a + "\n" + b == a + ['\n'] + b;
  }

  /** Nothing else does. */
  lemma NothingElseCuts(s: string)
    requires ',' !in s && '\n' !in s
    ensures Tokens(s) == if Trim(s) == "" then [] else [Trim(s)]
  {
    TokensOfText(s);
  }

  const WHITE_SPACE := [
    '\t', '\n', '\U{000B}', '\U{000C}', '\r', ' ', '\U{00A0}', '\U{1680}', '\U{2000}', '\U{2001}', '\U{2002}', '\U{2003}',
    '\U{2004}', '\U{2005}', '\U{2006}', '\U{2007}', '\U{2008}', '\U{2009}', '\U{200A}', '\U{2028}', '\U{2029}', '\U{202F}',
    '\U{205F}', '\U{3000}', '\U{FEFF}'
  ]

  lemma SpacesAreWhite(c: char)
    ensures IsSpace(c) <==> c in WHITE_SPACE
  {
    if '\U{2000}' <= c <= '\U{200A}' {
      var i := c as int - 0x2000;
      assert 0 <= i < 11 && WHITE_SPACE[8 + i] as int == c as int;
    }
  }

  // ---------- trimming ----------

  predicate Blank(s: string) {
    forall c | c in s :: IsSpace(c)
  }

  lemma {:induction false} TrimLeftOfBlank(pad: string, s: string)
    requires Blank(pad)
    ensures TrimLeft(pad + s) == TrimLeft(s)
  {
    if pad == "" {
      assert pad + s == s;
    } else {
      TrimLeftOfBlank(pad[1..], s);
      assert (pad + s)[1..] == pad[1..] + s;
    }
  }

  lemma {:induction false} TrimRightOfBlank(s: string, pad: string)
    requires Blank(pad)
    ensures TrimRight(s + pad) == TrimRight(s)
  {
    if pad == "" {
      assert s + pad == s;
    } else {
      TrimRightOfBlank(s, pad[..|pad| - 1]);
      assert (s + pad)[..|s + pad| - 1] == s + pad[..|pad| - 1];
    }
  }

  lemma {:induction false} TrimRightEnds(s: string)
    ensures |TrimRight(s)| <= |s| && s == TrimRight(s) + s[|TrimRight(s)|..]
    ensures Blank(s[|TrimRight(s)|..])
    ensures TrimRight(s) != "" ==> !IsSpace(TrimRight(s)[|TrimRight(s)| - 1])
  {
    if s != "" && IsSpace(s[|s| - 1]) {
      var shorter := s[..|s| - 1];
      TrimRightEnds(shorter);
      assert s[|TrimRight(s)|..] == shorter[|TrimRight(s)|..] + [s[|s| - 1]];
    }
  }

  lemma {:induction false} TrimLeftEnds(s: string)
    ensures |TrimLeft(s)| <= |s| && s == s[..|s| - |TrimLeft(s)|] + TrimLeft(s)
    ensures Blank(s[..|s| - |TrimLeft(s)|])
    ensures TrimLeft(s) != "" ==> !IsSpace(TrimLeft(s)[0])
  {
    if s != "" && IsSpace(s[0]) {
      TrimLeftEnds(s[1..]);
      assert s[..|s| - |TrimLeft(s)|] == [s[0]] + s[1..][..|s| - 1 - |TrimLeft(s)|];
    }
  }

  lemma TrimmedEnds(s: string)
    requires Trim(s) != ""
    ensures !IsSpace(Trim(s)[0]) && !IsSpace(Trim(s)[|Trim(s)| - 1])
  {
    TrimLeftEnds(s);
    TrimRightEnds(TrimLeft(s));
    assert Trim(s)[0] == TrimLeft(s)[0];
  }

  lemma Regroup(a: string, b: string, c: string)
    ensures a + b + c == a + (b + c)
  {
  }

  /** A text is its trimmed form between two blanks. */
  lemma Padded(s: string) returns (left: string, right: string)
    ensures s == left + Trim(s) + right && Blank(left) && Blank(right)
  {
    var t := TrimLeft(s);
    TrimLeftEnds(s);
    TrimRightEnds(t);
    left, right := s[..|s| - |t|], t[|TrimRight(t)|..];
    Regroup(left, Trim(s), right);
  }

  lemma BlankTrimsAway(s: string)
    ensures Trim(s) == "" <==> Blank(s)
  {
    var left, right := Padded(s);
    if Trim(s) == "" {
      assert s == left + right;
    } else {
      TrimmedEnds(s);
      assert Trim(s)[0] == s[|left|];
    }
  }

  /** Trimming takes exactly the white space off both ends. */
  lemma TrimInCharacters(s: string) returns (left: string, right: string)
    ensures s == left + Trim(s) + right
    ensures forall c | c in left || c in right :: c in WHITE_SPACE
    ensures Trim(s) != "" ==> Trim(s)[0] !in WHITE_SPACE && Trim(s)[|Trim(s)| - 1] !in WHITE_SPACE
  {
    left, right := Padded(s);
    forall c ensures IsSpace(c) <==> c in WHITE_SPACE {
      SpacesAreWhite(c);
    }
    if Trim(s) != "" {
      TrimmedEnds(s);
    }
  }

  lemma TrimPadded(left: string, token: string, right: string)
    requires Blank(left) && Blank(right)
    requires token != "" && !IsSpace(token[0]) && !IsSpace(token[|token| - 1])
    ensures Trim(left + token + right) == token
  {
    TrimLeftOfBlank(left, token + right);
    assert left + token + right == left + (token + right);
    TrimRightOfBlank(token, right);
  }

  lemma TrimTwice(s: string)
    ensures Trim(Trim(s)) == Trim(s)
  {
    if Trim(s) != "" {
      TrimmedEnds(s);
      TrimPadded("", Trim(s), "");
      assert "" + Trim(s) + "" == Trim(s);
    }
  }

  // ---------- splitting undoes joining ----------

  /** What may stand around tokens: separators and white space, in any mixture. */
  predicate Filler(s: string) {
    forall c | c in s :: IsSeparator(c) || IsSpace(c)
  }

  /** A token, and what follows it. */
  datatype Item = Item(token: string, gap: string)

  predicate IsToken(t: string) {
    t != "" && SeparatorFree(t) && !IsSpace(t[0]) && !IsSpace(t[|t| - 1])
  }

  /** Whether `items` are written properly: any two tokens have a separator somewhere between them. */
  predicate WrittenProperly(items: seq<Item>) {
    forall k | 0 <= k < |items| ::
      IsToken(items[k].token) && Filler(items[k].gap) && (k < |items| - 1 ==> !SeparatorFree(items[k].gap))
  }

  function Text(items: seq<Item>): string {
    if items == [] then "" else items[0].token + items[0].gap + Text(items[1..])
  }

  function TokensOf(items: seq<Item>): seq<string> {
    if items == [] then [] else [items[0].token] + TokensOf(items[1..])
  }

  /** The text before the first separator and the text behind it. */
  lemma Cut(s: string) returns (before: string, c: char, behind: string)
    requires !SeparatorFree(s)
    ensures s == before + [c] + behind && SeparatorFree(before) && IsSeparator(c)
  {
    var n := TextLength(s);
    before, c, behind := s[..n], s[n], s[n + 1..];
  }

  /** A text has no tokens exactly when it is nothing but separators and white space. */
  lemma {:induction false} NoTokens(s: string)
    ensures Tokens(s) == [] <==> Filler(s)
    decreases |s|
  {
    if SeparatorFree(s) {
      TokensOfText(s);
      BlankTrimsAway(s);
    } else {
      var before, c, behind := Cut(s);
      TokensOfSum(before, c, behind);
      NoTokens(before);
      NoTokens(behind);
      assert forall x :: x in s <==> x in before || x == c || x in behind;
    }
  }

  /** Filler in front of a list changes nothing. */
  lemma {:induction false} FillerInFront(filler: string, s: string)
    requires Filler(filler)
    ensures Tokens(filler + s) == Tokens(s)
    decreases |filler| + |s|
  {
    if !SeparatorFree(filler) {
      var before, c, behind := Cut(filler);
      NoTokens(before);
      assert filler + s == before + [c] + (behind + s);
      TokensOfSum(before, c, behind + s);
      FillerInFront(behind, s);
    } else if SeparatorFree(s) {
      TokensOfText(filler + s);
      TokensOfText(s);
      TrimLeftOfBlank(filler, s);
    } else {
      var before, c, behind := Cut(s);
      assert filler + s == filler + before + [c] + behind;
      TokensOfSum(filler + before, c, behind);
      TokensOfSum(before, c, behind);
      FillerInFront(filler, before);
    }
  }

  /** The first token of a list, with what stands around it up to the first separator behind it. */
  lemma FirstToken(left: string, token: string, right: string)
    requires IsToken(token) && Blank(left) && SeparatorFree(left) && Blank(right) && SeparatorFree(right)
    ensures Tokens(left + token + right) == [token]
  {
    TokensOfText(left + token + right);
    TrimPadded(left, token, right);
  }

  /** Where the first gap is cut: the token and its padding come before the cut, the rest of the list behind it. */
  lemma CutFirstGap(items: seq<Item>) returns (right: string, c: char, more: string)
    requires items != [] && WrittenProperly(items) && !SeparatorFree(items[0].gap)
    ensures IsSeparator(c) && Blank(right) && SeparatorFree(right) && Filler(more)
    ensures Text(items) == "" + items[0].token + right + [c] + (more + Text(items[1..]))
  {
    var gap := items[0].gap;
    right, c, more := Cut(gap);
    forall x | x in right ensures IsSpace(x) {
      assert x in gap;
    }
    assert items[0].token + gap + Text(items[1..]) == "" + items[0].token + right + [c] + (more + Text(items[1..]));
  }

  lemma LastItem(items: seq<Item>)
    requires items != [] && WrittenProperly(items) && SeparatorFree(items[0].gap)
    ensures Tokens(Text(items)) == TokensOf(items)
  {
    var token, gap := items[0].token, items[0].gap;
    assert items[1..] == [] && Text(items) == "" + token + gap;
    forall c | c in gap ensures IsSpace(c) {
    }
    FirstToken("", token, gap);
  }

  /** Splitting undoes joining: however tokens are padded and separated, they come back in order. */
  lemma {:induction false} SplittingUndoesJoining(lead: string, items: seq<Item>)
    requires Filler(lead) && WrittenProperly(items)
    ensures Tokens(lead + Text(items)) == TokensOf(items)
    decreases |items|
  {
    FillerInFront(lead, Text(items));
    if items == [] {
      NoTokens("");
    } else if SeparatorFree(items[0].gap) {
      LastItem(items);
    } else {
      var token, rest := items[0].token, items[1..];
      var right, c, more := CutFirstGap(items);
      TokensOfSum("" + token + right, c, more + Text(rest));
      FirstToken("", token, right);
      SplittingUndoesJoining(more, rest);
    }
  }

  lemma PartOf(s: string, left: string, part: string, right: string)
    requires SeparatorFree(s) && s == left + part + right
    ensures SeparatorFree(part)
  {
    assert forall i | 0 <= i < |part| :: part[i] == s[|left| + i];
  }

  lemma GapsJoin(left: string, token: string, right: string, cut: string, lead: string, rest: string)
    ensures left + token + right + cut + (lead + rest) == left + (token + (right + cut + lead) + rest)
  {
  }

  lemma OneMoreItem(first: Item, rest: seq<Item>)
    ensures Text([first] + rest) == first.token + first.gap + Text(rest)
    ensures IsToken(first.token) && Filler(first.gap) && (rest == [] || !SeparatorFree(first.gap)) ==>
      WrittenProperly(rest) ==> WrittenProperly([first] + rest)
  {
    assert ([first] + rest)[1..] == rest;
  }

  lemma WrittenFirst(s: string, cut: string, moreLead: string, moreItems: seq<Item>) returns (lead: string, items: seq<Item>)
    requires SeparatorFree(s) && Filler(moreLead) && WrittenProperly(moreItems)
    requires (cut == "" && moreItems == []) || (|cut| == 1 && IsSeparator(cut[0]))
    ensures Filler(lead) && WrittenProperly(items) && s + cut + (moreLead + Text(moreItems)) == lead + Text(items)
  {
    var left, right := Padded(s);
    if Trim(s) == "" {
      lead, items := s + cut + moreLead, moreItems;
    } else {
      TrimmedEnds(s);
      var first := Item(Trim(s), right + cut + moreLead);
      lead, items := left, [first] + moreItems;
      PartOf(s, left, Trim(s), right);
      assert cut != "" ==> first.gap[|right|] == cut[0];
      OneMoreItem(first, moreItems);
      GapsJoin(left, Trim(s), right, cut, moreLead, Text(moreItems));
    }
  }

  /** Every text is written properly in some way, so the round trip says what the tokens of any text are. */
  lemma {:induction false} EveryTextIsWritten(s: string) returns (lead: string, items: seq<Item>)
    ensures Filler(lead) && WrittenProperly(items) && s == lead + Text(items)
    decreases |s|
  {
    if SeparatorFree(s) {
      lead, items := WrittenFirst(s, "", "", []);
    } else {
      var before, c, behind := Cut(s);
      var moreLead, moreItems := EveryTextIsWritten(behind);
      lead, items := WrittenFirst(before, [c], moreLead, moreItems);
    }
  }

  /** The event filter of any written list is the list; only the empty filter means the default events. */
  lemma EventFilterRoundTrip(lead: string, items: seq<Item>)
    requires Filler(lead) && WrittenProperly(items)
    ensures ParseEventFilter(lead + Text(items)) == if lead + Text(items) == "" then DEFAULT_EVENTS else TokensOf(items)
  {
    SplittingUndoesJoining(lead, items);
  }

  /** A filter subscribes to nothing exactly when it is not empty, but nothing other than separators and white space. */
  lemma FilterForNothing(value: string)
    ensures ParseEventFilter(value) == [] <==> value != "" && Filler(value)
  {
    NoTokens(value);
  }

  /** Such a filter. */
  lemma SpaceIsForNothing()
    ensures ParseEventFilter(" ") == []
  {
    FilterForNothing(" ");
  }

  // ---------- plain names ----------

  function Join(items: seq<string>): string {
    if items == [] then "" else if |items| == 1 then items[0] else items[0] + "," + Join(items[1..])
  }

  predicate PlainName(name: string) {
    name != "" && forall i | 0 <= i < |name| :: 'a' <= name[i] <= 'z' || name[i] == '-'
  }

  lemma NamesAreTokens(name: string)
    requires PlainName(name)
    ensures IsToken(name)
  {
  }

  /** Plain names joined by commas come back as they are. */
  lemma {:induction false} JoinedNamesComeBack(names: seq<string>)
    requires forall n | n in names :: PlainName(n)
    ensures Tokens(Join(names)) == names
  {
    if names == [] {
      NoTokens("");
    } else {
      var name := names[0];
      NamesAreTokens(name);
      assert "" + name + "" == name;
      FirstToken("", name, "");
      if |names| > 1 {
        assert forall n | n in names[1..] :: n in names;
        JoinedNamesComeBack(names[1..]);
        CommasAndLinesCut(name, Join(names[1..]));
      }
    }
  }

  lemma ActiveToDelayed()
    ensures PlainName("active")
    ensures PlainName("added")
    ensures PlainName("cleaned")
    ensures PlainName("completed")
    ensures PlainName("deduplicated")
    ensures PlainName("delayed")
  {
  }

  lemma DrainedToRemoved()
    ensures PlainName("drained")
    ensures PlainName("duplicated")
    ensures PlainName("failed")
    ensures PlainName("paused")
    ensures PlainName("progress")
    ensures PlainName("removed")
  {
  }

  lemma ResumedToWaiting()
    ensures PlainName("resumed")
    ensures PlainName("retries-exhausted")
    ensures PlainName("stalled")
    ensures PlainName("waiting")
    ensures PlainName("waiting-children")
  {
  }

  lemma DefaultsArePlain()
    ensures forall n | n in DEFAULT_EVENTS :: PlainName(n)
  {
    ActiveToDelayed();
    DrainedToRemoved();
    ResumedToWaiting();
  }

  /** The empty filter means what the list of all events means, and that is this one. */
  lemma EmptyFilterMeansAll()
    ensures ParseEventFilter("") == [
      "active", "added", "cleaned", "completed", "deduplicated", "delayed", "drained", "duplicated", "failed", "paused",
      "progress", "removed", "resumed", "retries-exhausted", "stalled", "waiting", "waiting-children"]
    ensures Tokens(Join(DEFAULT_EVENTS)) == ParseEventFilter("")
  {
    DefaultsArePlain();
    JoinedNamesComeBack(DEFAULT_EVENTS);
  }

  // ---------- endpoint lists ----------

  datatype Result<+T> = Ok(value: T) | Err(error: string)

  /** Parsing one endpoint text: blank text is refused, otherwise `parse` decides about the trimmed text. */
  function ParseEndpoint<T>(parse: string -> Result<T>, s: string): Result<T> {
    if Trim(s) == "" then Err("Redis endpoint cannot be empty") else parse(Trim(s))
  }

  function ParseEach<T>(parse: string -> Result<T>, pieces: seq<string>): Result<seq<T>> {
    if pieces == [] then Ok([])
    else
      match ParseEndpoint(parse, pieces[0])
      case Err(e) => Err(e)
      case Ok(first) =>
        match ParseEach(parse, pieces[1..])
        case Err(e) => Err(e)
        case Ok(rest) => Ok([first] + rest)
  }

  /** Every piece is parsed, in order; one that is blank or refused spoils the list. */
  lemma {:induction false} ParseEachMeans<T>(parse: string -> Result<T>, pieces: seq<string>)
    ensures ParseEach(parse, pieces).Ok? <==> forall p | p in pieces :: Trim(p) != "" && parse(Trim(p)).Ok?
    ensures var r := ParseEach(parse, pieces);
      r.Ok? ==> |r.value| == |pieces| && forall i | 0 <= i < |pieces| :: Ok(r.value[i]) == parse(Trim(pieces[i]))
  {
    if pieces != [] {
      ParseEachMeans(parse, pieces[1..]);
      assert pieces == [pieces[0]] + pieces[1..];
    }
  }

  /** The string path trims every piece and drops the empty ones. */
  function EndpointsOfString<T>(parse: string -> Result<T>, value: string): Result<seq<T>> {
    ParseEach(parse, Tokens(value))
  }

  /** Splitting undoes joining for endpoint lists, too. */
  lemma EndpointListRoundTrip<T>(parse: string -> Result<T>, lead: string, items: seq<Item>)
    requires Filler(lead) && WrittenProperly(items)
    ensures EndpointsOfString(parse, lead + Text(items)) == ParseEach(parse, TokensOf(items))
  {
    SplittingUndoesJoining(lead, items);
  }

  /** The array path drops only the pieces that are empty as they stand. */
  function Present(pieces: seq<string>): seq<string> {
    if pieces == [] then [] else (if pieces[0] == "" then [] else [pieces[0]]) + Present(pieces[1..])
  }

  function SplitItems(items: seq<string>): seq<string> {
    if items == [] then [] else Split(items[0]) + SplitItems(items[1..])
  }

  function EndpointsOfArray<T>(parse: string -> Result<T>, items: seq<string>): Result<seq<T>> {
    ParseEach(parse, Present(SplitItems(items)))
  }

  /** Whether a piece consists of nothing but white space without being empty. */
  predicate HasBlankPiece(items: seq<string>) {
    exists p | p in SplitItems(items) :: p != "" && Trim(p) == ""
  }

  lemma {:induction false} ParsingCleaned<T>(parse: string -> Result<T>, pieces: seq<string>)
    requires forall p | p in pieces && Trim(p) == "" :: p == ""
    ensures ParseEach(parse, Present(pieces)) == ParseEach(parse, Clean(pieces))
  {
    if pieces != [] {
      assert forall p | p in pieces[1..] :: p in pieces;
      ParsingCleaned(parse, pieces[1..]);
      TrimTwice(pieces[0]);
      assert pieces[0] in pieces;
      if Trim(pieces[0]) == "" {
        assert Present(pieces) == Present(pieces[1..]) && Clean(pieces) == Clean(pieces[1..]);
      } else {
        assert Present(pieces)[1..] == Present(pieces[1..]) && Clean(pieces)[1..] == Clean(pieces[1..]);
      }
    }
  }

  lemma {:induction false} BlankPieceFails<T>(parse: string -> Result<T>, pieces: seq<string>, blank: string)
    requires blank in pieces && blank != "" && Trim(blank) == ""
    ensures ParseEach(parse, Present(pieces)).Err?
  {
    if pieces[0] == "" {
      assert Present(pieces) == Present(pieces[1..]);
      BlankPieceFails(parse, pieces[1..], blank);
    } else {
      assert Present(pieces)[1..] == Present(pieces[1..]);
      if pieces[0] != blank {
        BlankPieceFails(parse, pieces[1..], blank);
      }
    }
  }

  lemma {:induction false} TokensOfJoin(items: seq<string>)
    ensures Tokens(Join(items)) == Clean(SplitItems(items))
  {
    if items == [] {
      TokensOfText("");
    } else if |items| == 1 {
      assert SplitItems(items) == Split(items[0]);
    } else {
      TokensOfJoin(items[1..]);
      TokensOfSum(items[0], ',', Join(items[1..]));
      assert items[0] + "," + Join(items[1..]) == items[0] + [','] + Join(items[1..]);
      CleanOfSum(Split(items[0]), SplitItems(items[1..]));
    }
  }

  /** An array of endpoint texts means what their comma-joined list means as long as no piece of it is blank, and is
      an error otherwise; so where the list itself is accepted, the two agree exactly when no piece is blank. */
  lemma ArrayAgreesWithString<T>(parse: string -> Result<T>, items: seq<string>)
    ensures !HasBlankPiece(items) ==> EndpointsOfArray(parse, items) == EndpointsOfString(parse, Join(items))
    ensures HasBlankPiece(items) ==> EndpointsOfArray(parse, items).Err?
    ensures EndpointsOfString(parse, Join(items)).Ok? ==>
      (EndpointsOfArray(parse, items) == EndpointsOfString(parse, Join(items)) <==> !HasBlankPiece(items))
  {
    TokensOfJoin(items);
    if HasBlankPiece(items) {
      var p :| p in SplitItems(items) && p != "" && Trim(p) == "";
      BlankPieceFails(parse, SplitItems(items), p);
    } else {
      assert Trim("") == "";
      ParsingCleaned(parse, SplitItems(items));
    }
  }

  lemma TokensOfLetter(text: string)
    requires text == "a"
    ensures Tokens(text) == ["a"] && Trim(text) == "a"
  {
    TrimPadded("", text, "");
    assert "" + text + "" == text;
    TokensOfText(text);
  }

  lemma TokensBehindBlank(text: string)
    requires text == " ,a"
    ensures Tokens(text) == ["a"]
  {
    assert text == " " + [','] + "a";
    TokensOfSum(" ", ',', "a");
    NoTokens(" ");
    TokensOfLetter("a");
  }

  lemma BlankInFront(text: string)
    requires text == " ,a"
    ensures HasBlankPiece([text])
  {
    FirstSeparator(text, 1);
    assert text[..1] == " ";
    BlankTrimsAway(" ");
    assert SplitItems([text]) == Split(text) + SplitItems([]);
    assert Split(text)[0] == " ";
  }

  lemma OneEndpoint<T>(parse: string -> Result<T>, text: string)
    requires Trim(text) == text != "" && parse(text).Ok?
    ensures ParseEach(parse, [text]) == Ok([parse(text).value])
  {
    assert [text][1..] == [];
    assert [parse(text).value] + [] == [parse(text).value];
  }

  /** A list that is accepted as a string and refused as an array, whatever else makes an endpoint. */
  lemma ArrayRefusesWhatStringAccepts<T>(parse: string -> Result<T>)
    requires parse("a").Ok?
    ensures EndpointsOfString(parse, Join([" ,a"])) == Ok([parse("a").value])
    ensures EndpointsOfArray(parse, [" ,a"]).Err?
  {
    TokensBehindBlank(" ,a");
    BlankInFront(" ,a");
    ArrayAgreesWithString(parse, [" ,a"]);
    TokensOfLetter("a");
    OneEndpoint(parse, "a");
  }
}
