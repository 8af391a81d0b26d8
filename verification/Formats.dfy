/** The three regular expressions of the structural and cross-property checks. */
module Formats {
  // `$` also matches just before one final newline.
  function WithoutFinalNewline(s: string): string {
    if |s| > 0 && s[|s| - 1] == '\n' then s[..|s| - 1] else s
  }

  predicate IsHex(c: char) {
    '0' <= c <= '9' || 'a' <= c <= 'f' || 'A' <= c <= 'F'
  }

  predicate IsUuid(s: string) {
    && |s| == 36
    && s[8] == s[13] == s[18] == s[23] == '-'
    && forall i | 0 <= i < 36 && i != 8 && i != 13 && i != 18 && i != 23 :: IsHex(s[i])
  }

  /** `rid` matches ri.<prefix>.<uuid>. */
  predicate IsRid(rid: string, prefix: string) {
    var s := WithoutFinalNewline(rid);
    var n := |prefix|;
    && |s| == n + 40
    && s[..3] == "ri."
    && s[3..n + 3] == prefix
    && s[n + 3] == '.'
    && IsUuid(s[n + 4..])
  }

  /** A uuid after `head`; one final newline is let through. */
  ghost predicate Spelled(rid: string, head: string) {
    exists uuid :: IsUuid(uuid) && (rid == head + uuid || rid == head + uuid + "\n")
  }

  /** A rid is a uuid written after the kind's prefix. */
  lemma RidIsSpelled(rid: string, prefix: string)
    ensures IsRid(rid, prefix) <==> Spelled(rid, "ri." + prefix + ".")
  {
    var head, s, n := "ri." + prefix + ".", WithoutFinalNewline(rid), |prefix|;
    assert s == rid || rid == s + "\n";
    if IsRid(rid, prefix) {
      assert s == head + s[n + 4..] by {
        assert s == s[..3] + s[3..n + 3] + [s[n + 3]] + s[n + 4..];
      }
      assert IsUuid(s[n + 4..]);
    }
    if uuid :| IsUuid(uuid) && (rid == head + uuid || rid == head + uuid + "\n") {
      assert IsHex((head + uuid)[n + 39]) by { assert (head + uuid)[n + 39] == uuid[35]; }
      assert s == head + uuid;
      assert s[..3] == "ri." && s[3..n + 3] == prefix && s[n + 3] == '.' && s[n + 4..] == uuid;
    }
  }

  /** Five groups of hexadecimal digits. */
  ghost predicate IsGroup(s: string, n: nat) {
    |s| == n && forall i | 0 <= i < n :: IsHex(s[i])
  }

  lemma UuidIsGroups(s: string)
    ensures IsUuid(s) <==> exists a, b, c, d, e ::
              IsGroup(a, 8) && IsGroup(b, 4) && IsGroup(c, 4) && IsGroup(d, 4) && IsGroup(e, 12) &&
              s == a + "-" + b + "-" + c + "-" + d + "-" + e
  {
    if IsUuid(s) {
      var a, b, c, d, e := s[..8], s[9..13], s[14..18], s[19..23], s[24..];
      assert IsGroup(a, 8) && IsGroup(b, 4) && IsGroup(c, 4) && IsGroup(d, 4) && IsGroup(e, 12);
      assert s == a + "-" + b + "-" + c + "-" + d + "-" + e;
    }
  }

  predicate IsLower(c: char) { 'a' <= c <= 'z' }

  predicate IsDigit(c: char) { '0' <= c <= '9' }

  /** Lower-case words of letters and digits, joined by single underscores. */
  predicate IsApiName(name: string) {
    var s := WithoutFinalNewline(name);
    && |s| > 0
    && IsLower(s[0])
    && (forall i | 0 <= i < |s| :: IsLower(s[i]) || IsDigit(s[i]) || s[i] == '_')
    && (forall i | 0 < i < |s| :: s[i - 1] != '_' || s[i] != '_')
    && s[|s| - 1] != '_'
  }

  /** A word of lower-case letters and digits. */
  ghost predicate IsWord(w: string) {
    w != "" && forall i | 0 <= i < |w| :: IsLower(w[i]) || IsDigit(w[i])
  }

  ghost function JoinWords(words: seq<string>): string
    requires words != []
  {
    if |words| == 1 then words[0] else words[0] + "_" + JoinWords(words[1..])
  }

  ghost predicate AreWords(words: seq<string>) {
    words != [] && forall i | 0 <= i < |words| :: IsWord(words[i])
  }

  /** Letters, digits and single underscores, none of them at either end. */
  ghost predicate IsSnake(s: string) {
    && s != "" && s[0] != '_' && s[|s| - 1] != '_'
    && (forall i | 0 <= i < |s| :: IsLower(s[i]) || IsDigit(s[i]) || s[i] == '_')
    && (forall i | 0 < i < |s| :: s[i - 1] != '_' || s[i] != '_')
  }

  lemma {:induction false} JoinedIsSnake(words: seq<string>)
    requires AreWords(words)
    ensures IsSnake(JoinWords(words)) && JoinWords(words)[0] == words[0][0]
  {
    var w := words[0];
    assert IsWord(w);
    if |words| > 1 {
      JoinedIsSnake(words[1..]);
      var rest := JoinWords(words[1..]);
      var s := w + "_" + rest;
      assert forall i | 0 <= i < |w| :: s[i] == w[i];
      assert forall i | |w| < i < |s| :: s[i] == rest[i - |w| - 1];
      forall i | 0 < i < |s| ensures s[i - 1] != '_' || s[i] != '_' {
        assert i > |w| + 1 ==> s[i - 1] == rest[i - |w| - 2];
      }
    }
  }

  /** The length of the first word. */
  ghost function WordEnd(s: string): (n: nat)
    ensures n <= |s| && (forall i | 0 <= i < n :: s[i] != '_') && (n < |s| ==> s[n] == '_')
  {
    if s == "" || s[0] == '_' then 0 else 1 + WordEnd(s[1..])
  }

  lemma {:induction false} SnakeIsJoined(s: string) returns (words: seq<string>)
    requires IsSnake(s)
    ensures AreWords(words) && s == JoinWords(words)
    decreases |s|
  {
    var n := WordEnd(s);
    assert IsWord(s[..n]);
    if n == |s| {
      words := [s];
      assert s[..n] == s;
    } else {
      var rest := s[n + 1..];
      assert n + 1 < |s| && s[n] == '_' && rest[0] == s[n + 1];
      assert forall i | 0 <= i < |rest| :: rest[i] == s[n + 1 + i];
      forall i | 0 < i < |rest| ensures rest[i - 1] != '_' || rest[i] != '_' {
        assert rest[i - 1] == s[n + i];
      }
      var more := SnakeIsJoined(rest);
      words := [s[..n]] + more;
      assert words[1..] == more && s == s[..n] + "_" + rest;
    }
  }

  /** An api name is words joined by single underscores, the first starting with a letter. */
  lemma ApiNameIsWords(name: string)
    ensures IsApiName(name) <==>
            exists words :: AreWords(words) && IsLower(words[0][0]) &&
                            (name == JoinWords(words) || name == JoinWords(words) + "\n")
  {
    var s := WithoutFinalNewline(name);
    assert s == name || name == s + "\n";
    if IsApiName(name) {
      var words := SnakeIsJoined(s);
      JoinedIsSnake(words);
    }
    if words :| AreWords(words) && IsLower(words[0][0]) &&
                (name == JoinWords(words) || name == JoinWords(words) + "\n") {
      JoinedIsSnake(words);
      assert s == JoinWords(words);
    }
  }

  predicate IsIdentifierChar(c: char) { IsLower(c) || IsDigit(c) || c == '_' }

  /** The first position at or after `i` that does not continue an identifier. */
  function IdentifierEnd(s: string, i: nat): (j: nat)
    requires i <= |s|
    ensures i <= j <= |s|
    ensures forall k | i <= k < j :: IsIdentifierChar(s[k])
    ensures j < |s| ==> !IsIdentifierChar(s[j])
    decreases |s| - i
  {
    if i < |s| && IsIdentifierChar(s[i]) then IdentifierEnd(s, i + 1) else i
  }

  /** All names written as {name} in `s` from position `i` on, left to right without overlap. */
  function References(s: string, i: nat): seq<string>
    requires i <= |s|
    decreases |s| - i
  {
    if i == |s| then
      []
    else if s[i] == '{' && i + 1 < |s| && IsLower(s[i + 1]) then
      var j := IdentifierEnd(s, i + 1);
      if j < |s| && s[j] == '}' then [s[i + 1..j]] + References(s, j + 1) else References(s, i + 1)
    else
      References(s, i + 1)
  }

  /** The text at position `k` is {name}. */
  ghost predicate Occurs(s: string, k: nat, name: string) {
    var end := k + 1 + |name|;
    && end < |s| && s[k] == '{' && s[end] == '}'
    && s[k + 1..end] == name
    && name != "" && IsLower(name[0]) && forall m | 0 <= m < |name| :: IsIdentifierChar(name[m])
  }

  lemma OccursHere(s: string, i: nat, name: string)
    requires i < |s|
    ensures Occurs(s, i, name) <==>
            && s[i] == '{' && i + 1 < |s| && IsLower(s[i + 1])
            && var j := IdentifierEnd(s, i + 1);
            && j < |s| && s[j] == '}' && name == s[i + 1..j]
  {
    if Occurs(s, i, name) {
      var end, j := i + 1 + |name|, IdentifierEnd(s, i + 1);
      assert s[i + 1] == name[0];
      assert forall k | i + 1 <= k < end :: s[k] == name[k - i - 1];
      assert !IsIdentifierChar('}');
      assert j == end;
    }
  }

  /** The scan misses no occurrence, although it skips the text of each match. */
  lemma {:induction false} ReferencesAreOccurrences(s: string, i: nat, name: string)
    requires i <= |s|
    ensures name in References(s, i) <==> exists k: nat :: i <= k && Occurs(s, k, name)
    decreases |s| - i
  {
    if i < |s| {
      OccursHere(s, i, name);
      var next := if s[i] == '{' && i + 1 < |s| && IsLower(s[i + 1])
                     && var j := IdentifierEnd(s, i + 1); j < |s| && s[j] == '}'
                  then IdentifierEnd(s, i + 1) + 1 else i + 1;
      ReferencesAreOccurrences(s, next, name);
      assert forall k: nat | i < k < next :: !Occurs(s, k, name);
    }
  }
}
