/**
 The Redis Cluster prefix: what the configuration check accepts, and whether all keys under the prefix share a slot.

 Hash parts and slots follow the Redis Cluster Specification, sections "Hash tags" and "Key distribution model".
 */
module HashTags {
  import opened Histories
  import opened Wrappers

  /** The first position of a character, or the length if it does not occur. */
  function IndexOf(s: string, c: char): (i: nat)
    ensures i <= |s| && (i < |s| ==> s[i] == c) && forall k | 0 <= k < i :: s[k] != c
  {
    if s == "" || s[0] == c then 0 else 1 + IndexOf(s[1..], c)
  }

  /** Whether the first brace opens a tag that is closed and not empty. */
  predicate Tagged(key: string) {
    var i := IndexOf(key, '{');
    i < |key| && 0 < IndexOf(key[i + 1..], '}') < |key[i + 1..]|
  }

  /** The part of a key that decides its slot. */
  function HashPart(key: string): string {
    if Tagged(key) then
      var i := IndexOf(key, '{');
      key[i + 1..][..IndexOf(key[i + 1..], '}')]
    else key
  }

  lemma {:induction false} IndexIsFirst(s: string, c: char, i: nat)
    requires i < |s| && s[i] == c && forall k | 0 <= k < i :: s[k] != c
    ensures IndexOf(s, c) == i
  {
    if i > 0 {
      IndexIsFirst(s[1..], c, i - 1);
    }
  }

  /** Hash tags in plain characters: the text between the first opening brace and the first closing one behind it, if
      there is any text between them; otherwise the whole key. */
  lemma HashPartInCharacters(key: string, i: nat, j: nat)
    requires i < j < |key| && key[i] == '{' && '{' !in key[..i] && key[j] == '}' && '}' !in key[i + 1..j]
    ensures HashPart(key) == if j == i + 1 then key else key[i + 1..j]
  {
    var rest := key[i + 1..];
    assert forall k | 0 <= k < i :: key[k] in key[..i];
    IndexIsFirst(key, '{', i);
    assert rest[j - i - 1] == '}' && forall k | 0 <= k < j - i - 1 :: rest[k] in key[i + 1..j];
    IndexIsFirst(rest, '}', j - i - 1);
    assert rest[..j - i - 1] == key[i + 1..j];
  }

  lemma NoHashPart(key: string)
    requires '{' !in key || forall i, j | 0 <= i < j < |key| && key[i] == '{' :: key[j] != '}'
    ensures HashPart(key) == key
  {
    var i := IndexOf(key, '{');
    if i < |key| {
      var rest := key[i + 1..];
      assert key[i] in key;
      assert forall k | 0 <= k < |rest| :: rest[k] == key[i + 1 + k] && rest[k] != '}';
    }
  }

  const CLUSTER_PREFIX := "{bull}"

  predicate MatchesAt(prefix: string, i: int, j: int) {
    0 <= i && i + 2 <= j < |prefix| && prefix[i] == '{' && prefix[j] == '}' && '}' !in prefix[i + 1..j]
  }

  /** The pattern of the configuration check: an opening brace, something that is not a closing one, a closing one. */
  ghost predicate Accepts(prefix: string) {
    exists i, j :: MatchesAt(prefix, i, j)
  }

  /** The check in plain characters: somewhere an opening brace is followed by something other than a closing one, and
      later by a closing one. */
  ghost predicate HasBracedText(prefix: string) {
    exists i, k | 0 <= i && i + 1 < k < |prefix| :: prefix[i] == '{' && prefix[i + 1] != '}' && prefix[k] == '}'
  }

  lemma AcceptsBracedText(prefix: string)
    ensures Accepts(prefix) <==> HasBracedText(prefix)
  {
    if Accepts(prefix) {
      var i, j :| MatchesAt(prefix, i, j);
      assert prefix[i + 1] == prefix[i + 1..j][0];
    }
    if HasBracedText(prefix) {
      var i, k :| 0 <= i && i + 1 < k < |prefix| && prefix[i] == '{' && prefix[i + 1] != '}' && prefix[k] == '}';
      var rest := prefix[i + 1..];
      assert rest[k - i - 1] == '}';
      var n := IndexOf(rest, '}');
      assert prefix[i + 1..i + 1 + n] == rest[..n];
      assert MatchesAt(prefix, i, i + 1 + n);
    }
  }

  /** The prefix of a cluster configuration, or None where the package throws. */
  ghost function NormalizePrefix(prefix: string): Option<string> {
    var chosen := if prefix == "" then CLUSTER_PREFIX else prefix;
    if Accepts(chosen) then Some(chosen) else None
  }

  /** An empty prefix becomes the default; any other is kept if it has a braced text, and refused otherwise. */
  lemma PrefixesInCharacters(prefix: string)
    ensures NormalizePrefix(prefix) ==
              if prefix == "" then Some("{bull}") else if HasBracedText(prefix) then Some(prefix) else None
  {
    AcceptsBracedText(prefix);
    AcceptsBracedText(CLUSTER_PREFIX);
    var d := CLUSTER_PREFIX;
    assert d[0] == '{' && d[1] == 'b' && d[5] == '}';
  }

  /** A refused prefix: its only braces enclose nothing. */
  lemma EmptyTagIsRefused(prefix: string)
    requires prefix == "bull{}"
    ensures NormalizePrefix(prefix) == None
  {
    PrefixesInCharacters(prefix);
    assert forall i | 0 <= i < |prefix| && prefix[i] == '{' :: i == 4;
  }

  // ---------- slots ----------

  /** CRC16 of the XMODEM family: polynomial 0x1021, starting at zero, most significant bit first. */
  function Shift(crc: bv16): bv16 {
    if crc & 0x8000 != 0 then (crc << 1) ^ 0x1021 else crc << 1
  }

  function Feed(crc: bv16, b: bv8): bv16 {
    Shift(Shift(Shift(Shift(Shift(Shift(Shift(Shift(crc ^ ((b as bv16) << 8)))))))))
  }

  /** A checksum is fed one byte after the other. */
  function Fold<T>(feed: (T, bv8) -> T, start: T, bytes: seq<bv8>): T {
    if bytes == [] then start else feed(Fold(feed, start, Prefix(bytes)), Last(bytes))
  }

  function Crc16(bytes: seq<bv8>): bv16 {
    Fold(Feed, 0, bytes)
  }

  /** Redis has 16384 slots. */
  function Low14(crc: bv16): bv16 {
    crc & 0x3FFF
  }

  /** The encoding of characters is left open but for two letters that stand for themselves, as in UTF-8. */
  type Encoding = char -> seq<bv8>

  ghost predicate KeepsLetters(encode: Encoding) {
    encode('b') == [0x62] && encode('c') == [0x63]
  }

  function Bytes(encode: Encoding, s: string): seq<bv8> {
    if s == "" then [] else Bytes(encode, Prefix(s)) + encode(Last(s))
  }

  /** How the hash part of a key is turned into a slot. */
  type Hashing = string -> bv16

  function Checksum<T>(feed: (T, bv8) -> T, start: T, result: T -> bv16, encode: Encoding): Hashing {
    s => result(Fold(feed, start, Bytes(encode, s)))
  }

  function RedisHashing(encode: Encoding): Hashing {
    Checksum(Feed, 0, Low14, encode)
  }

  /** All that matters about it: some difference at the end of a text is always noticed. */
  ghost predicate TellsApart(hashing: Hashing) {
    forall s :: hashing(s + ['b']) != hashing(s + ['c'])
  }

  function Slot(hashing: Hashing, key: string): bv16 {
    hashing(HashPart(key))
  }

  /** Whether all keys of the queues under a prefix share a slot. BullMQ's keys continue their prefix with a colon. */
  ghost predicate OneSlot(hashing: Hashing, prefix: string) {
    forall s, t :: Slot(hashing, prefix + ":" + s) == Slot(hashing, prefix + ":" + t)
  }

  lemma OneMoreByte<T>(feed: (T, bv8) -> T, start: T, bytes: seq<bv8>, b: bv8)
    ensures Fold(feed, start, bytes + [b]) == feed(Fold(feed, start, bytes), b)
  {
    assert Prefix(bytes + [b]) == bytes;
  }

  lemma FeedDigits()
    ensures Feed(0x0000, 0x31) == 0x2672
    ensures Feed(0x2672, 0x32) == 0x20B5
    ensures Feed(0x20B5, 0x33) == 0x9752
    ensures Feed(0x9752, 0x34) == 0xD789
    ensures Feed(0xD789, 0x35) == 0x546C
    ensures Feed(0x546C, 0x36) == 0x20E4
    ensures Feed(0x20E4, 0x37) == 0x86D6
    ensures Feed(0x86D6, 0x38) == 0x9015
    ensures Feed(0x9015, 0x39) == 0x31C3
  {
  }

  /** The check value of the specification: the digits 1 to 9. */
  lemma CheckValue()
    ensures Crc16([] + [0x31] + [0x32] + [0x33] + [0x34] + [0x35] + [0x36] + [0x37] + [0x38] + [0x39]) == 0x31C3
  {
    FeedDigits();
    OneMoreByte(Feed, 0, [], 0x31);
    OneMoreByte(Feed, 0, [] + [0x31], 0x32);
    OneMoreByte(Feed, 0, [] + [0x31] + [0x32], 0x33);
    OneMoreByte(Feed, 0, [] + [0x31] + [0x32] + [0x33], 0x34);
    OneMoreByte(Feed, 0, [] + [0x31] + [0x32] + [0x33] + [0x34], 0x35);
    OneMoreByte(Feed, 0, [] + [0x31] + [0x32] + [0x33] + [0x34] + [0x35], 0x36);
    OneMoreByte(Feed, 0, [] + [0x31] + [0x32] + [0x33] + [0x34] + [0x35] + [0x36], 0x37);
    OneMoreByte(Feed, 0, [] + [0x31] + [0x32] + [0x33] + [0x34] + [0x35] + [0x36] + [0x37], 0x38);
    OneMoreByte(Feed, 0, [] + [0x31] + [0x32] + [0x33] + [0x34] + [0x35] + [0x36] + [0x37] + [0x38], 0x39);
  }

  /** Two texts that differ in one bit of their last byte are in different slots. */
  lemma LastBitDecides(crc: bv16)
    ensures Low14(Feed(crc, 0x62)) != Low14(Feed(crc, 0x63))
  {
  }

  lemma LastLetter<T>(feed: (T, bv8) -> T, start: T, encode: Encoding, s: string, c: char, b: bv8)
    requires encode(c) == [b]
    ensures Fold(feed, start, Bytes(encode, s + [c])) == feed(Fold(feed, start, Bytes(encode, s)), b)
  {
    assert Prefix(s + [c]) == s;
    OneMoreByte(feed, start, Bytes(encode, s), b);
  }

  /** A checksum tells texts apart if the last bit fed to it always counts. */
  lemma ChecksumTellsApart<T(!new)>(feed: (T, bv8) -> T, start: T, result: T -> bv16, encode: Encoding)
    requires KeepsLetters(encode) && forall t :: result(feed(t, 0x62)) != result(feed(t, 0x63))
    ensures TellsApart(Checksum(feed, start, result, encode))
  {
    var hashing := Checksum(feed, start, result, encode);
    forall s: string ensures hashing(s + ['b']) != hashing(s + ['c']) {
      LastLetter(feed, start, encode, s, 'b', 0x62);
      LastLetter(feed, start, encode, s, 'c', 0x63);
    }
  }

  /** Redis tells such texts apart, whatever the encoding of the other characters. */
  lemma RedisTellsApart(encode: Encoding)
    requires KeepsLetters(encode)
    ensures TellsApart(RedisHashing(encode))
  {
    forall crc ensures Low14(Feed(crc, 0x62)) != Low14(Feed(crc, 0x63)) {
      LastBitDecides(crc);
    }
    ChecksumTellsApart(Feed, 0, Low14, encode);
  }

  // ---------- prefixes ----------

  /** A tag of the prefix is the tag of every key under it. */
  lemma TagIsInherited(prefix: string, s: string)
    requires Tagged(prefix)
    ensures Tagged(prefix + s) && HashPart(prefix + s) == HashPart(prefix)
  {
    var i := IndexOf(prefix, '{');
    var j := IndexOf(prefix[i + 1..], '}');
    IndexIsFirst(prefix + s, '{', i);
    assert (prefix + s)[i + 1..] == prefix[i + 1..] + s;
    IndexIsFirst(prefix[i + 1..] + s, '}', j);
  }

  /** Without a tag of its own, a prefix leaves its keys to be hashed as a whole, unless they close a tag themselves. */
  lemma UntaggedIsWhole(prefix: string, s: string)
    requires !Tagged(prefix) && '}' !in s
    ensures HashPart(prefix + s) == prefix + s
  {
    var key := prefix + s;
    var n := IndexOf(key, '{');
    if n < |prefix| {
      var rest, keyRest := prefix[n + 1..], key[n + 1..];
      assert forall k | 0 <= k < n :: prefix[k] == key[k];
      IndexIsFirst(prefix, '{', n);
      assert keyRest == rest + s;
      var m := IndexOf(keyRest, '}');
      if m < |rest| {
        assert forall k | 0 <= k <= m :: rest[k] == keyRest[k];
        IndexIsFirst(rest, '}', m);
      }
    }
  }

  /** Without a tag of its own, a prefix leaves two of its keys in different slots. */
  lemma UntaggedDiffers(hashing: Hashing, prefix: string)
    requires !Tagged(prefix) && TellsApart(hashing)
    ensures Slot(hashing, prefix + ":" + "b") != Slot(hashing, prefix + ":" + "c")
  {
    UntaggedIsWhole(prefix, ":b");
    UntaggedIsWhole(prefix, ":c");
    assert prefix + ":b" == prefix + ":" + "b" && prefix + ":c" == prefix + ":" + "c";
  }

  lemma TaggedShares(hashing: Hashing, prefix: string, s: string)
    requires Tagged(prefix)
    ensures Slot(hashing, prefix + ":" + s) == Slot(hashing, prefix)
  {
    TagIsInherited(prefix, ":" + s);
    assert prefix + ":" + s == prefix + (":" + s);
  }

  /** The keys of a prefix share a slot exactly when it brings a usable tag. */
  lemma OneSlotMeansTagged(hashing: Hashing, prefix: string)
    requires TellsApart(hashing)
    ensures OneSlot(hashing, prefix) <==> Tagged(prefix)
  {
    if Tagged(prefix) {
      forall s ensures Slot(hashing, prefix + ":" + s) == Slot(hashing, prefix) {
        TaggedShares(hashing, prefix, s);
      }
    } else {
      UntaggedDiffers(hashing, prefix);
    }
  }

  /** Every prefix with a usable tag is accepted. */
  lemma TaggedIsAccepted(prefix: string)
    requires Tagged(prefix)
    ensures Accepts(prefix)
  {
    var i := IndexOf(prefix, '{');
    var j := i + 1 + IndexOf(prefix[i + 1..], '}');
    assert prefix[j] == prefix[i + 1..][j - i - 1];
    var rest := prefix[i + 1..];
    assert prefix[i + 1..j] == rest[..j - i - 1];
    assert MatchesAt(prefix, i, j);
  }

  /** The check is weaker than the rule: an accepted prefix keeps its keys in one slot exactly when its first opening
      brace is not closed at once. */
  lemma AcceptedSharesASlot(hashing: Hashing, prefix: string)
    requires TellsApart(hashing) && Accepts(prefix)
    ensures IndexOf(prefix, '{') + 1 < |prefix|
    ensures OneSlot(hashing, prefix) <==> prefix[IndexOf(prefix, '{') + 1] != '}'
  {
    var i, j :| MatchesAt(prefix, i, j);
    var n := IndexOf(prefix, '{');
    assert n <= i;
    OneSlotMeansTagged(hashing, prefix);
    var rest := prefix[n + 1..];
    assert rest[j - n - 1] == '}';
    assert IndexOf(rest, '}') <= j - n - 1;
    assert rest[0] == prefix[n + 1];
  }

  /** The same for Redis itself, whatever the encoding of the other characters. */
  lemma RedisKeepsTogether(encode: Encoding, prefix: string)
    requires KeepsLetters(encode) && Accepts(prefix)
    ensures IndexOf(prefix, '{') + 1 < |prefix|
    ensures OneSlot(RedisHashing(encode), prefix) <==> prefix[IndexOf(prefix, '{') + 1] != '}'
  {
    RedisTellsApart(encode);
    AcceptedSharesASlot(RedisHashing(encode), prefix);
  }

  lemma DefaultIsAccepted(prefix: string)
    requires prefix == CLUSTER_PREFIX
    ensures Accepts(prefix) && IndexOf(prefix, '{') == 0
  {
    assert prefix[0] == '{' && prefix[5] == '}';
    assert prefix[1] == 'b' && prefix[2] == 'u' && prefix[3] == 'l' && prefix[4] == 'l';
    assert MatchesAt(prefix, 0, 5);
  }

  lemma EmptyTagIsAccepted(prefix: string)
    requires prefix == "{}{bull}"
    ensures Accepts(prefix) && IndexOf(prefix, '{') == 0
  {
    assert prefix[0] == '{' && prefix[2] == '{' && prefix[7] == '}';
    assert prefix[3] == 'b' && prefix[4] == 'u' && prefix[5] == 'l' && prefix[6] == 'l';
    assert MatchesAt(prefix, 2, 7);
  }

  lemma BraceThenLetter(hashing: Hashing, prefix: string)
    requires TellsApart(hashing) && Accepts(prefix) && IndexOf(prefix, '{') == 0 && |prefix| > 1 && prefix[1] != '}'
    ensures OneSlot(hashing, prefix)
  {
    AcceptedSharesASlot(hashing, prefix);
  }

  /** A configuration that leaves the prefix empty is safe. */
  lemma DefaultIsSafe(hashing: Hashing, prefix: string)
    requires TellsApart(hashing) && prefix == ""
    ensures NormalizePrefix(prefix) == Some(CLUSTER_PREFIX) && OneSlot(hashing, CLUSTER_PREFIX)
  {
    var chosen := CLUSTER_PREFIX;
    DefaultIsAccepted(chosen);
    BraceThenLetter(hashing, chosen);
  }

  /** A configuration whose prefix is accepted need not be. */
  lemma AcceptanceIsNotSafe(hashing: Hashing, prefix: string)
    requires TellsApart(hashing) && prefix == "{}{bull}"
    ensures NormalizePrefix(prefix) == Some(prefix) && !OneSlot(hashing, prefix)
  {
    EmptyTagIsAccepted(prefix);
    AcceptedSharesASlot(hashing, prefix);
  }
}
