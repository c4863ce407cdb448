/**
 * The room-code generator `generateCode`.
 *
 * The random source is a caller-supplied sequence of picks: the k-th
 * character of the code is the alphabet character at index `picks[k]`.
 * Each pick stands for `Math.floor(Math.random() * arr.length)` and is
 * therefore below the alphabet's length.
 */
module CodeGen {

  /** The alphabet exactly as written: 34 characters, no '0' and no 'l'. */
  const ALPHABET: string := "123456789abcdefghijkmnopqrstuvwxyz"

  /** Length of the codes the handlers generate. */
  const ROOM_LENGTH: nat := 6

  /** Every pick indexes the alphabet. */
  predicate ValidPicks(picks: seq<nat>) {
    forall k :: 0 <= k < |picks| ==> picks[k] < |ALPHABET|
  }

  /** Every character of `s` comes from the alphabet. */
  predicate OverAlphabet(s: string) {
    forall k :: 0 <= k < |s| ==> s[k] in ALPHABET
  }

  /** A code of `ROOM_LENGTH` alphabet characters. */
  predicate IsRoomCode(s: string) {
    |s| == ROOM_LENGTH && OverAlphabet(s)
  }

  function Max0(n: int): nat {
    if n > 0 then n else 0
  }

  /**
   * The alphabet has 34 characters: the digits 1 to 9 and the lower-case
   * letters except 'l'. So '0' and 'l' are missing and 'o' is present.
   */
  lemma AlphabetFacts()
    ensures |ALPHABET| == 34
    ensures '0' !in ALPHABET && 'l' !in ALPHABET && 'o' in ALPHABET
  {
  }

  /** The alphabet holds exactly the digits 1 to 9 and the letters a to z other than 'l'. */
  lemma AlphabetMembers()
    ensures forall c :: c in ALPHABET <==> ('1' <= c <= '9' || ('a' <= c <= 'z' && c != 'l'))
  {
  }

  /** No character occurs twice in the alphabet. */
  lemma AlphabetDistinct()
    ensures forall i, j :: 0 <= i < j < |ALPHABET| ==> ALPHABET[i] != ALPHABET[j]
  {
  }

  /** The code spelled by a sequence of picks, built character by character. */
  function CodeOf(picks: seq<nat>): (code: string)
    requires ValidPicks(picks)
    ensures |code| == |picks|
    ensures forall k :: 0 <= k < |picks| ==> code[k] == ALPHABET[picks[k]]
  {
    if picks == [] then ""
    else CodeOf(picks[..|picks| - 1]) + [ALPHABET[picks[|picks| - 1]]]
  }

  /**
   * `generateCode(length)`: counts `i` down from `length` to 1 and appends
   * one alphabet character per round, so the loop runs `max(length, 0)`
   * times and uses that many picks.
   */
  method GenerateCode(length: int, picks: seq<nat>) returns (ans: string)
    requires Max0(length) <= |picks| && ValidPicks(picks)
    ensures |ans| == Max0(length)
    ensures ans == CodeOf(picks[..Max0(length)])
    ensures OverAlphabet(ans)
  {
    ans := "";
    var i := length;
    while i > 0
      invariant i <= length && Max0(i) <= Max0(length)
      invariant ans == CodeOf(picks[..Max0(length) - Max0(i)])
    {
      ghost var used := picks[..length - i + 1];
      assert used[..|used| - 1] == picks[..length - i];
      ans := ans + [ALPHABET[picks[length - i]]];
      i := i - 1;
    }
  }

  /** No generated code contains one of the confusable characters '0' and 'l'. */
  lemma CodeAvoidsConfusables(picks: seq<nat>)
    requires ValidPicks(picks)
    ensures OverAlphabet(CodeOf(picks))
    ensures '0' !in CodeOf(picks) && 'l' !in CodeOf(picks)
  {
  }

  /** The first index at which `c` occurs in `s`. */
  function IndexIn(s: string, c: char): (i: nat)
    requires c in s
    ensures i < |s| && s[i] == c
    ensures forall j :: 0 <= j < i ==> s[j] != c
  {
    if s[0] == c then 0 else 1 + IndexIn(s[1..], c)
  }

  /** The picks that spell a given code: the inverse of `CodeOf`. */
  function PicksOf(code: string): (picks: seq<nat>)
    requires OverAlphabet(code)
    ensures |picks| == |code| && ValidPicks(picks)
    ensures forall k :: 0 <= k < |code| ==> ALPHABET[picks[k]] == code[k]
  {
    seq(|code|, k requires 0 <= k < |code| => IndexIn(ALPHABET, code[k]))
  }

  /** Every code over the alphabet can come out of the generator. */
  lemma EveryCodeReachable(code: string)
    requires OverAlphabet(code)
    ensures CodeOf(PicksOf(code)) == code
  {
  }

  /**
   * Different picks give different codes, so the generator maps the
   * 34^n pick sequences of length n one-to-one onto the codes of length n.
   */
  lemma PicksDetermineCode(picks: seq<nat>)
    requires ValidPicks(picks)
    ensures OverAlphabet(CodeOf(picks))
    ensures PicksOf(CodeOf(picks)) == picks
  {
    var code := CodeOf(picks);
    CodeAvoidsConfusables(picks);
    var back := PicksOf(code);
    AlphabetDistinct();
    forall k | 0 <= k < |picks|
      ensures back[k] == picks[k]
    {
      assert ALPHABET[back[k]] == code[k] == ALPHABET[picks[k]];
    }
  }
}
