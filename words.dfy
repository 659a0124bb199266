/**
 * The word-based password generator: dictionary words are capitalised and
 * concatenated, too-short results are retried under a retry counter kept on
 * the service instance, and optional substitution passes replace letters by
 * digits, special characters or smileys.
 */
module Words {
  import opened Common

  /** A substitution table: (lower-case letter, replacement), in PHP array order. */
  type Table = seq<(char, string)>

  const NumbersTable: Table := [('e', "3"), ('l', "1"), ('o', "0"), ('s', "5"), ('t', "7")]
  const SpecialCharactersTable: Table := [('e', "\U{20AC}"), ('a', "@"), ('s', "$"), ('i', "!")]
  const SmileysTable: Table := [('d', ":D"), ('p', ";P"), ('o', ":O")]

  const MinimumLength: nat := 12
  const MaximumRetries: nat := 5

  // ---------------------------------------------------------------------------
  // Case-insensitive search and replacement (stripos, preg_replace with /i)
  // ---------------------------------------------------------------------------

  /** ASCII lower-casing, as PHP's case-insensitive string functions use it. */
  function Lower(c: char): char {
    if 'A' <= c <= 'Z' then (c as int + 32) as char else c
  }

  predicate Matches(c: char, key: char) {
    Lower(c) == key
  }

  /** `stripos(w, key) !== false` */
  predicate Occurs(w: string, key: char) {
    exists i :: 0 <= i < |w| && Matches(w[i], key)
  }

  function FirstMatch(w: string, key: char): (i: nat)
    requires Occurs(w, key)
    ensures i < |w| && Matches(w[i], key)
    ensures forall j :: 0 <= j < i ==> !Matches(w[j], key)
  {
    if Matches(w[0], key) then 0
    else
      assert Occurs(w[1..], key) by {
        var i :| 0 <= i < |w| && Matches(w[i], key);
        assert w[1..][i - 1] == w[i];
      }
      1 + FirstMatch(w[1..], key)
  }

  function LastMatch(w: string, key: char): (i: nat)
    requires Occurs(w, key)
    ensures i < |w| && Matches(w[i], key)
    ensures forall j :: i < j < |w| ==> !Matches(w[j], key)
  {
    var n := |w| - 1;
    if Matches(w[n], key) then n
    else
      assert Occurs(w[..n], key) by {
        var i :| 0 <= i < |w| && Matches(w[i], key);
        assert w[..n][i] == w[i];
      }
      LastMatch(w[..n], key)
  }

  /** `preg_replace("/key/i", rep, w, 1)`: the first match only. */
  function ReplaceFirst(w: string, key: char, rep: string): string {
    if Occurs(w, key) then
      var i := FirstMatch(w, key);
      w[..i] + rep + w[i + 1..]
    else w
  }

  /** The reference meaning of a reversed replacement: the last match only. */
  function ReplaceLast(w: string, key: char, rep: string): string {
    if Occurs(w, key) then
      var i := LastMatch(w, key);
      w[..i] + rep + w[i + 1..]
    else w
  }

  /** `strrev` on characters. */
  function Reverse(s: string): (r: string) {
    seq(|s|, k requires 0 <= k < |s| => s[|s| - 1 - k])
  }

  lemma ReverseAppend(a: string, b: string)
    ensures Reverse(a + b) == Reverse(b) + Reverse(a)
  {
    assert forall k :: 0 <= k < |a| + |b| ==> Reverse(a + b)[k] == (Reverse(b) + Reverse(a))[k];
  }

  lemma ReverseReverse(s: string)
    ensures Reverse(Reverse(s)) == s
  {
  }

  /** Reversing, replacing the first match of the reversed text by the reversed
      replacement, and reversing back replaces the LAST match of the original. */
  lemma {:induction false} ReversedReplaceIsReplaceLast(w: string, key: char, rep: string)
    ensures Reverse(ReplaceFirst(Reverse(w), key, Reverse(rep))) == ReplaceLast(w, key, rep)
  {
    var n := |w|;
    var rw := Reverse(w);
    if Occurs(w, key) {
      var i := LastMatch(w, key);
      assert rw[n - 1 - i] == w[i];
      assert Occurs(rw, key);
      var f := FirstMatch(rw, key);
      assert rw[f] == w[n - 1 - f];
      assert f == n - 1 - i;
      var a, b := rw[..f], rw[f + 1..];
      calc {
        Reverse(ReplaceFirst(rw, key, Reverse(rep)));
        Reverse(a + Reverse(rep) + b);
        { ReverseAppend(a + Reverse(rep), b); }
        Reverse(b) + Reverse(a + Reverse(rep));
        { ReverseAppend(a, Reverse(rep)); }
        Reverse(b) + (Reverse(Reverse(rep)) + Reverse(a));
        { ReverseReverse(rep); }
        Reverse(b) + (rep + Reverse(a));
        { assert Reverse(b) == w[..i]; assert Reverse(a) == w[i + 1..]; }
        w[..i] + rep + w[i + 1..];
      }
    } else {
      forall f | 0 <= f < n
        ensures !Matches(rw[f], key)
      {
        assert rw[f] == w[n - 1 - f];
      }
      ReverseReverse(w);
    }
  }

  // ---------------------------------------------------------------------------
  // replaceCharacters: reference definition
  // ---------------------------------------------------------------------------

  /** The substituted word and how many replacements were made. */
  datatype Outcome = Outcome(word: string, replacements: nat)

  /** The loop head of `replaceCharacters`: another round is run while fewer
      than `amount` rounds and fewer than `amount` replacements were made. */
  function Rounds(w: string, t: Table, amount: int, rounds: nat, done: nat): Outcome
    decreases amount - rounds, |t| + 1
  {
    if rounds < amount && done < amount then Pass(w, t, amount, rounds, 0, done)
    else Outcome(w, done)
  }

  /** One round over the table from entry i on. Every table letter that occurs
      is replaced once; the first replacement of the whole call takes the first
      match, every later one the last match. Reaching `amount` ends the call. */
  function Pass(w: string, t: Table, amount: int, rounds: nat, i: nat, done: nat): Outcome
    requires rounds < amount && done < amount && i <= |t|
    decreases amount - rounds, |t| - i
  {
    if i == |t| then Rounds(w, t, amount, rounds + 1, done)
    else if !Occurs(w, t[i].0) then Pass(w, t, amount, rounds, i + 1, done)
    else
      var w' := Replaced(w, t[i], done == 0);
      if done + 1 == amount then Outcome(w', done + 1)
      else Pass(w', t, amount, rounds, i + 1, done + 1)
  }

  /** One replacement: of the first match when `first`, of the last otherwise.
      Exactly one character gives way to the replacement. */
  function Replaced(w: string, entry: (char, string), first: bool): (r: string)
    requires Occurs(w, entry.0)
    ensures |r| == |w| - 1 + |entry.1|
  {
    ReplacementLength(w, entry.0, entry.1);
    if first then ReplaceFirst(w, entry.0, entry.1) else ReplaceLast(w, entry.0, entry.1)
  }

  function Substituted(word: string, amount: int, t: Table): Outcome {
    Rounds(word, t, amount, 0, 0)
  }

  /** Every replacement of the table has length len. */
  predicate UniformTable(t: Table, len: nat) {
    forall i :: 0 <= i < |t| ==> |t[i].1| == len
  }

  /** No table letter occurs in w, case-insensitively. */
  predicate NoneOccurs(w: string, t: Table) {
    forall i :: 0 <= i < |t| ==> !Occurs(w, t[i].0)
  }

  lemma ReplacementLength(w: string, key: char, rep: string)
    requires Occurs(w, key)
    ensures |ReplaceFirst(w, key, rep)| == |w| - 1 + |rep|
    ensures |ReplaceLast(w, key, rep)| == |w| - 1 + |rep|
  {
  }

  /** With replacements of length len, each replacement grows the word by
      len - 1; the number of replacements never exceeds `amount`. */
  lemma {:induction false} RoundsShape(w: string, t: Table, amount: int, rounds: nat, done: nat, len: nat)
    requires UniformTable(t, len) && len >= 1
    ensures Rounds(w, t, amount, rounds, done).replacements >= done
    ensures done <= amount ==> Rounds(w, t, amount, rounds, done).replacements <= amount
    ensures |Rounds(w, t, amount, rounds, done).word|
            == |w| + Growth(Rounds(w, t, amount, rounds, done).replacements - done, len - 1)
    decreases amount - rounds, |t| + 1
  {
    if rounds < amount && done < amount {
      PassShape(w, t, amount, rounds, 0, done, len);
    }
  }

  lemma {:induction false} PassShape(w: string, t: Table, amount: int, rounds: nat, i: nat, done: nat, len: nat)
    requires UniformTable(t, len) && len >= 1
    requires rounds < amount && done < amount && i <= |t|
    ensures Pass(w, t, amount, rounds, i, done).replacements >= done
    ensures Pass(w, t, amount, rounds, i, done).replacements <= amount
    ensures |Pass(w, t, amount, rounds, i, done).word|
            == |w| + Growth(Pass(w, t, amount, rounds, i, done).replacements - done, len - 1)
    decreases amount - rounds, |t| - i
  {
    var o := Pass(w, t, amount, rounds, i, done);
    var g := len - 1;
    if i == |t| {
      RoundsShape(w, t, amount, rounds + 1, done, len);
    } else if !Occurs(w, t[i].0) {
      PassShape(w, t, amount, rounds, i + 1, done, len);
    } else {
      var w' := Replaced(w, t[i], done == 0);
      assert |w'| == |w| + g;
      if done + 1 == amount {
        assert Growth(1, g) == g;
      } else {
        PassShape(w', t, amount, rounds, i + 1, done + 1, len);
        var k := o.replacements - (done + 1);
        assert Growth(k + 1, g) == Growth(k, g) + g;
      }
    }
  }

  /** n replacements of one character by g + 1 characters each: n * g, by
      repeated addition so that the proofs above stay linear. */
  function Growth(n: int, g: int): int {
    if n <= 0 then 0 else Growth(n - 1, g) + g
  }

  lemma {:induction false} GrowthIsProduct(n: nat, g: int)
    ensures Growth(n, g) == n * g
  {
    if n > 0 {
      GrowthIsProduct(n - 1, g);
    }
  }

  /** The word is returned unchanged when no table letter occurs in it. */
  lemma {:induction false} RoundsWithoutMatch(w: string, t: Table, amount: int, rounds: nat, done: nat)
    requires NoneOccurs(w, t)
    ensures Rounds(w, t, amount, rounds, done) == Outcome(w, done)
    decreases amount - rounds, |t| + 1
  {
    if rounds < amount && done < amount {
      PassWithoutMatch(w, t, amount, rounds, 0, done);
    }
  }

  lemma {:induction false} PassWithoutMatch(w: string, t: Table, amount: int, rounds: nat, i: nat, done: nat)
    requires NoneOccurs(w, t)
    requires rounds < amount && done < amount && i <= |t|
    ensures Pass(w, t, amount, rounds, i, done) == Outcome(w, done)
    decreases amount - rounds, |t| - i
  {
    if i == |t| {
      RoundsWithoutMatch(w, t, amount, rounds + 1, done);
    } else {
      assert !Occurs(w, t[i].0);
      PassWithoutMatch(w, t, amount, rounds, i + 1, done);
    }
  }

  /** The contract of a substitution pass as a whole. */
  lemma SubstitutedProperties(word: string, amount: int, t: Table, len: nat)
    requires UniformTable(t, len) && len >= 1
    ensures Substituted(word, amount, t).replacements <= if amount < 0 then 0 else amount
    ensures |Substituted(word, amount, t).word| == |word| + Substituted(word, amount, t).replacements * (len - 1)
    ensures amount <= 0 ==> Substituted(word, amount, t) == Outcome(word, 0)
    ensures NoneOccurs(word, t) ==> Substituted(word, amount, t) == Outcome(word, 0)
  {
    RoundsShape(word, t, amount, 0, 0, len);
    GrowthIsProduct(Substituted(word, amount, t).replacements, len - 1);
    if NoneOccurs(word, t) {
      RoundsWithoutMatch(word, t, amount, 0, 0);
    }
  }

  /** The first replacement of a call takes the FIRST match. From any point of
      a round before any replacement was made (`done == 0`), for any positive
      `amount`: the entries from i on that do not occur are skipped, and the
      next entry j that occurs is replaced at its first case-insensitive
      match; the call then ends if `amount` is 1, or goes on with entry j + 1. */
  lemma {:induction false} FirstReplacementHitsFirstMatch(w: string, t: Table, amount: int, rounds: nat,
                                                          i: nat, j: nat)
    requires rounds < amount && i <= j < |t|
    requires forall k :: i <= k < j ==> !Occurs(w, t[k].0)
    requires Occurs(w, t[j].0)
    ensures var w' := ReplaceFirst(w, t[j].0, t[j].1);
            Pass(w, t, amount, rounds, i, 0)
            == if amount == 1 then Outcome(w', 1) else Pass(w', t, amount, rounds, j + 1, 1)
    decreases j - i
  {
    if i < j {
      assert !Occurs(w, t[i].0);
      FirstReplacementHitsFirstMatch(w, t, amount, rounds, i + 1, j);
    }
  }

  /** Every replacement after the first takes the LAST match. From any point
      of any round once a replacement was made (`done >= 1`), for any
      `amount`: the entries from i on that do not occur are skipped, and the
      next entry j that occurs is replaced at its last case-insensitive match;
      the call then ends if that was the `amount`-th replacement, or goes on
      with entry j + 1. */
  lemma {:induction false} LaterReplacementsHitLastMatch(w: string, t: Table, amount: int, rounds: nat,
                                                         i: nat, j: nat, done: nat)
    requires rounds < amount && 1 <= done < amount && i <= j < |t|
    requires forall k :: i <= k < j ==> !Occurs(w, t[k].0)
    requires Occurs(w, t[j].0)
    ensures var w' := ReplaceLast(w, t[j].0, t[j].1);
            Pass(w, t, amount, rounds, i, done)
            == if done + 1 == amount then Outcome(w', done + 1) else Pass(w', t, amount, rounds, j + 1, done + 1)
    decreases j - i
  {
    if i < j {
      assert !Occurs(w, t[i].0);
      LaterReplacementsHitLastMatch(w, t, amount, rounds, i + 1, j, done);
    }
  }

  // ---------------------------------------------------------------------------
  // replaceCharacters as the loop the source runs
  // ---------------------------------------------------------------------------

  /** `replaceCharacters`: the while/foreach loop with its `reverse` flag, which
      is set by the first replacement and never cleared. */
  method ReplaceCharacters(word: string, amount: int, list: Table) returns (r: string)
    ensures r == Substituted(word, amount, list).word
  {
    r := word;
    var rounds: nat := 0;
    var replacements: nat := 0;
    var reverse := false;
    while rounds < amount && replacements < amount
      invariant reverse <==> replacements > 0
      invariant Rounds(r, list, amount, rounds, replacements) == Substituted(word, amount, list)
      decreases amount - rounds
    {
      var i := 0;
      var stopped := false;
      while i < |list|
        invariant 0 <= i <= |list|
        invariant reverse <==> replacements > 0
        invariant replacements < amount
        invariant Pass(r, list, amount, rounds, i, replacements) == Substituted(word, amount, list)
      {
        var (find, replace) := list[i];
        if Occurs(r, find) {
          ghost var before := r;
          if reverse {
            r := Reverse(r);
            replace := Reverse(replace);
          }
          r := ReplaceFirst(r, find, replace);
          if reverse {
            r := Reverse(r);
            ReversedReplaceIsReplaceLast(before, find, list[i].1);
            ReverseReverse(list[i].1);
          }
          assert r == Replaced(before, list[i], replacements == 0);
          reverse := true;
          replacements := replacements + 1;
          if replacements == amount {
            stopped := true;
            break;
          }
        }
        i := i + 1;
      }
      rounds := rounds + 1;
      if stopped {
        assert Rounds(r, list, amount, rounds, replacements) == Outcome(r, replacements);
      }
    }
  }

  method AddNumbers(word: string, amount: int) returns (r: string)
    ensures r == Substituted(word, amount, NumbersTable).word
  {
    r := ReplaceCharacters(word, amount, NumbersTable);
  }

  method AddSpecialCharacters(word: string, amount: int) returns (r: string)
    ensures r == Substituted(word, amount, SpecialCharactersTable).word
  {
    r := ReplaceCharacters(word, amount, SpecialCharactersTable);
  }

  method AddSmileys(word: string, amount: int) returns (r: string)
    ensures r == Substituted(word, amount, SmileysTable).word
  {
    r := ReplaceCharacters(word, amount, SmileysTable);
  }

  // ---------------------------------------------------------------------------
  // wordsToPassword
  // ---------------------------------------------------------------------------

  /** PHP `ucfirst`: an ASCII lower-case first letter becomes upper case. */
  function UcFirst(w: string): (r: string)
    ensures |r| == |w|
    ensures |w| > 0 ==> r[1..] == w[1..] && !('a' <= r[0] <= 'z') && Lower(r[0]) == Lower(w[0])
  {
    if |w| > 0 && 'a' <= w[0] <= 'z' then [(w[0] as int - 32) as char] + w[1..] else w
  }

  function TotalLength(words: seq<string>): nat {
    if words == [] then 0 else TotalLength(words[..|words| - 1]) + |words[|words| - 1]|
  }

  /** `wordsToPassword`: capitalise each word and concatenate without a separator. */
  function WordsToPassword(words: seq<string>): (p: string)
    ensures |p| == TotalLength(words)
  {
    if words == [] then ""
    else WordsToPassword(words[..|words| - 1]) + UcFirst(words[|words| - 1])
  }

  /** Each word occupies its own slice of the password, capitalised. */
  lemma {:induction false} WordsToPasswordSlices(words: seq<string>, k: nat)
    requires k < |words|
    ensures TotalLength(words[..k]) + |words[k]| <= TotalLength(words)
    ensures WordsToPassword(words)[TotalLength(words[..k])..TotalLength(words[..k]) + |words[k]|]
            == UcFirst(words[k])
  {
    var n := |words| - 1;
    assert words[..n] == words[..|words| - 1];
    if k == n {
    } else {
      assert words[..n][..k] == words[..k];
      WordsToPasswordSlices(words[..n], k);
      var p := WordsToPassword(words[..n]);
      var lo, hi := TotalLength(words[..k]), TotalLength(words[..k]) + |words[k]|;
      assert WordsToPassword(words) == p + UcFirst(words[n]);
      assert (p + UcFirst(words[n]))[lo..hi] == p[lo..hi];
    }
  }

  // ---------------------------------------------------------------------------
  // getPassword
  // ---------------------------------------------------------------------------

  /** The word source: its answer to the n-th call of the service for a given
      strength (n is the retry counter after its increment), or None when the
      source or the words helper throws. */
  type WordSource = (int, nat) -> Option<seq<string>>

  /** A generated password with the words it came from, or the uniform
      `ApiException('Internal Words API Error')`. */
  datatype Generation = Generated(password: string, words: seq<string>) | InternalWordsApiError

  /** `amount` for the substitution passes: never below the strength, at
      least 2 for every positive strength, and positive exactly when the
      strength is. */
  function Amount(strength: int): (a: int)
    ensures a >= strength
    ensures strength >= 1 ==> a >= 2
    ensures a >= 1 <==> strength >= 1
  {
    if strength == 1 then 2 else strength
  }

  /** The three optional passes, in the order numbers, special characters, smileys. */
  function Augment(p: string, amount: int, addNumbers: bool, addSpecialCharacters: bool, addSmileys: bool): string {
    var p1 := if addNumbers then Substituted(p, amount, NumbersTable).word else p;
    var p2 := if addSpecialCharacters then Substituted(p1, amount, SpecialCharactersTable).word else p1;
    if addSmileys then Substituted(p2, amount, SmileysTable).word else p2
  }

  lemma AugmentKeepsLength(p: string, amount: int, addNumbers: bool, addSpecialCharacters: bool, addSmileys: bool)
    ensures |Augment(p, amount, addNumbers, addSpecialCharacters, addSmileys)| >= |p|
  {
    var p1 := if addNumbers then Substituted(p, amount, NumbersTable).word else p;
    SubstitutedGrows(p, amount, NumbersTable, 1);
    assert |p1| >= |p|;
    var p2 := if addSpecialCharacters then Substituted(p1, amount, SpecialCharactersTable).word else p1;
    SubstitutedGrows(p1, amount, SpecialCharactersTable, 1);
    assert |p2| >= |p1|;
    var p3 := if addSmileys then Substituted(p2, amount, SmileysTable).word else p2;
    SubstitutedGrows(p2, amount, SmileysTable, 2);
    assert |p3| >= |p2|;
    assert Augment(p, amount, addNumbers, addSpecialCharacters, addSmileys) == p3;
  }

  /** A strength of 0 or less makes all three passes the identity. */
  lemma NonPositiveStrengthKeepsPassword(p: string, strength: int, addNumbers: bool, addSpecialCharacters: bool,
                                         addSmileys: bool)
    requires strength <= 0
    ensures Augment(p, Amount(strength), addNumbers, addSpecialCharacters, addSmileys) == p
  {
    var a := Amount(strength);
    SubstitutedProperties(p, a, NumbersTable, 1);
    SubstitutedProperties(p, a, SpecialCharactersTable, 1);
    SubstitutedProperties(p, a, SmileysTable, 2);
  }

  /** With a positive strength, a pass over a word holding one of its table
      letters replaces at least one and at most `Amount(strength)` of them. */
  lemma PositiveStrengthReplaces(word: string, strength: int, t: Table, len: nat)
    requires strength >= 1 && UniformTable(t, len) && len >= 1 && !NoneOccurs(word, t)
    ensures 1 <= Substituted(word, Amount(strength), t).replacements <= Amount(strength)
  {
    var a := Amount(strength);
    SubstitutedProperties(word, a, t, len);
    var j :| 0 <= j < |t| && Occurs(word, t[j].0);
    PassFindsMatch(word, t, a, 0, 0, j, 0, len);
  }

  /** A round that still has an occurring entry ahead makes a replacement. */
  lemma {:induction false} PassFindsMatch(w: string, t: Table, amount: int, rounds: nat, i: nat, j: nat,
                                          done: nat, len: nat)
    requires UniformTable(t, len) && len >= 1
    requires rounds < amount && done < amount && i <= j < |t| && Occurs(w, t[j].0)
    ensures Pass(w, t, amount, rounds, i, done).replacements > done
    decreases j - i
  {
    if !Occurs(w, t[i].0) {
      PassFindsMatch(w, t, amount, rounds, i + 1, j, done, len);
    } else if done + 1 < amount {
      PassShape(Replaced(w, t[i], done == 0), t, amount, rounds, i + 1, done + 1, len);
    }
  }

  lemma SubstitutedGrows(word: string, amount: int, t: Table, len: nat)
    requires UniformTable(t, len) && len >= 1
    ensures |Substituted(word, amount, t).word| >= |word|
  {
    SubstitutedProperties(word, amount, t, len);
  }

  /** One call of `getPassword` given the retry counter before it: the result
      and the counter afterwards. A too-short password retries by recursion;
      any failure below surfaces as the same ApiException. */
  function GetPasswordSpec(strength: int, addNumbers: bool, addSpecialCharacters: bool, addSmileys: bool,
                           source: WordSource, retries: nat): (Generation, nat)
    decreases if retries <= MaximumRetries then MaximumRetries + 1 - retries else 0
  {
    var n := retries + 1;
    if n > MaximumRetries then (InternalWordsApiError, n)
    else match source(strength, n)
      case None => (InternalWordsApiError, n)
      case Some(words) =>
        var p := WordsToPassword(words);
        if |p| < MinimumLength then
          GetPasswordSpec(strength, addNumbers, addSpecialCharacters, addSmileys, source, n)
        else
          (Generated(Augment(p, Amount(strength), addNumbers, addSpecialCharacters, addSmileys), words), n)
  }

  /** The counter grows on every attempt, recursive retries included, and never
      passes 6 when it starts at 5 or below. */
  lemma {:induction false} RetriesCounted(strength: int, addNumbers: bool, addSpecialCharacters: bool, addSmileys: bool,
                                          source: WordSource, retries: nat)
    ensures GetPasswordSpec(strength, addNumbers, addSpecialCharacters, addSmileys, source, retries).1 > retries
    ensures retries <= MaximumRetries ==>
              GetPasswordSpec(strength, addNumbers, addSpecialCharacters, addSmileys, source, retries).1 <= MaximumRetries + 1
    decreases if retries <= MaximumRetries then MaximumRetries + 1 - retries else 0
  {
    var n := retries + 1;
    var spec := GetPasswordSpec(strength, addNumbers, addSpecialCharacters, addSmileys, source, retries);
    if n > MaximumRetries || source(strength, n).None? {
      assert spec.1 == n;
    } else {
      var p := WordsToPassword(source(strength, n).value);
      if |p| < MinimumLength {
        assert spec == GetPasswordSpec(strength, addNumbers, addSpecialCharacters, addSmileys, source, n);
        RetriesCounted(strength, addNumbers, addSpecialCharacters, addSmileys, source, n);
      } else {
        assert spec.1 == n;
      }
    }
  }

  /** Once the counter has reached 5, every further call fails, whatever the source says. */
  lemma ExhaustedServiceFails(strength: int, addNumbers: bool, addSpecialCharacters: bool, addSmileys: bool,
                              source: WordSource, retries: nat)
    requires retries >= MaximumRetries
    ensures GetPasswordSpec(strength, addNumbers, addSpecialCharacters, addSmileys, source, retries)
            == (InternalWordsApiError, retries + 1)
  {
  }

  /** A source whose words are always too short exhausts the retries and fails. */
  lemma {:induction false} ShortWordsFail(strength: int, addNumbers: bool, addSpecialCharacters: bool, addSmileys: bool,
                                          source: WordSource, retries: nat)
    requires forall n: nat :: source(strength, n).Some? ==> |WordsToPassword(source(strength, n).value)| < MinimumLength
    ensures GetPasswordSpec(strength, addNumbers, addSpecialCharacters, addSmileys, source, retries).0 == InternalWordsApiError
    decreases if retries <= MaximumRetries then MaximumRetries + 1 - retries else 0
  {
    var n := retries + 1;
    if n <= MaximumRetries && source(strength, n).Some? {
      ShortWordsFail(strength, addNumbers, addSpecialCharacters, addSmileys, source, n);
    }
  }

  /** A success is the augmented, capitalised concatenation of the words the
      source gave on some attempt, and is at least 12 characters long. */
  lemma {:induction false} GeneratedPasswordIsLongEnough(strength: int, addNumbers: bool, addSpecialCharacters: bool,
                                                         addSmileys: bool, source: WordSource, retries: nat)
    ensures var (g, after) := GetPasswordSpec(strength, addNumbers, addSpecialCharacters, addSmileys, source, retries);
            g.Generated? ==>
              && |g.password| >= MinimumLength
              && |WordsToPassword(g.words)| >= MinimumLength
              && source(strength, after) == Some(g.words)
              && g.password == Augment(WordsToPassword(g.words), Amount(strength), addNumbers, addSpecialCharacters, addSmileys)
    decreases if retries <= MaximumRetries then MaximumRetries + 1 - retries else 0
  {
    var n := retries + 1;
    var (g, after) := GetPasswordSpec(strength, addNumbers, addSpecialCharacters, addSmileys, source, retries);
    if n <= MaximumRetries && source(strength, n).Some? {
      var words := source(strength, n).value;
      var p := WordsToPassword(words);
      if |p| < MinimumLength {
        assert (g, after) == GetPasswordSpec(strength, addNumbers, addSpecialCharacters, addSmileys, source, n);
        GeneratedPasswordIsLongEnough(strength, addNumbers, addSpecialCharacters, addSmileys, source, n);
      } else {
        var augmented := Augment(p, Amount(strength), addNumbers, addSpecialCharacters, addSmileys);
        assert (g, after) == (Generated(augmented, words), n);
        AugmentKeepsLength(p, Amount(strength), addNumbers, addSpecialCharacters, addSmileys);
      }
    } else {
      assert g == InternalWordsApiError;
    }
  }

  /** The service; `retries` lives on the instance and is never reset. */
  class WordsService {
    var retries: nat

    constructor ()
      ensures retries == 0
    {
      retries := 0;
    }

    /** `getPassword` */
    method GetPassword(strength: int, addNumbers: bool, addSpecialCharacters: bool, addSmileys: bool,
                       source: WordSource) returns (g: Generation)
      modifies this
      ensures (g, retries) == GetPasswordSpec(strength, addNumbers, addSpecialCharacters, addSmileys, source, old(retries))
      decreases if retries <= MaximumRetries then MaximumRetries + 1 - retries else 0
    {
      retries := retries + 1;
      if retries > MaximumRetries {
        return InternalWordsApiError;
      }
      var words := source(strength, retries);
      if words.None? {
        return InternalWordsApiError;
      }
      var password := WordsToPassword(words.value);
      if |password| < MinimumLength {
        g := GetPassword(strength, addNumbers, addSpecialCharacters, addSmileys, source);
        return;
      }
      var amount := if strength == 1 then 2 else strength;
      if addNumbers {
        password := AddNumbers(password, amount);
      }
      if addSpecialCharacters {
        password := AddSpecialCharacters(password, amount);
      }
      if addSmileys {
        password := AddSmileys(password, amount);
      }
      g := Generated(password, words.value);
    }
  }
}
