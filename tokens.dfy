/**
 * The token estimator shared by both components: a text whose JavaScript
 * length is n is taken to hold ceil(n / 4) tokens. There is no real
 * tokenizer behind it.
 */
module Tokens {

  /** Length units per token assumed by the estimator. */
  const CHARS_PER_TOKEN: nat := 4

  /** The first character that UTF-16 encodes as a surrogate pair. */
  const FIRST_SUPPLEMENTARY: int := 0x10000

  /**
   * JavaScript's `text.length`: the number of UTF-16 code units, so a
   * character outside the Basic Multilingual Plane (an emoji, say) counts
   * twice.
   */
  function Utf16Length(text: string): nat
  {
    if text == [] then 0
    else (if text[0] as int < FIRST_SUPPLEMENTARY then 1 else 2) + Utf16Length(text[1..])
  }

  /** Each character contributes one or two code units. */
  lemma {:induction false} Utf16LengthBounds(text: string)
    ensures |text| <= Utf16Length(text) <= 2 * |text|
  {
    if text != [] {
      Utf16LengthBounds(text[1..]);
    }
  }

  /** A text without supplementary characters has as many code units as characters. */
  lemma {:induction false} Utf16LengthOfBmpText(text: string)
    requires forall i :: 0 <= i < |text| ==> text[i] as int < FIRST_SUPPLEMENTARY
    ensures Utf16Length(text) == |text|
  {
    if text != [] {
      Utf16LengthOfBmpText(text[1..]);
    }
  }

  /** The code-unit length of a concatenation is the sum of the lengths. */
  lemma {:induction false} Utf16LengthConcat(first: string, second: string)
    ensures Utf16Length(first + second) == Utf16Length(first) + Utf16Length(second)
  {
    if first == [] {
      assert first + second == second;
    } else {
      assert (first + second)[1..] == first[1..] + second;
      Utf16LengthConcat(first[1..], second);
    }
  }

  /**
   * `Math.ceil(text.length / 4)`, computed on integers. The ensures clause is
   * the real-number ceiling itself: the result is the least whole number that
   * is at least a quarter of the code-unit length.
   */
  function EstimateTokens(text: string): (tokens: nat)
    ensures tokens as real - 1.0 < Utf16Length(text) as real / 4.0 <= tokens as real
  {
    (Utf16Length(text) + CHARS_PER_TOKEN - 1) / CHARS_PER_TOKEN
  }

  /** Boundary behaviour: length 4k gives k tokens, 4k+1 up to 4k+3 give k+1. */
  lemma EstimateTokensAtBoundaries(text: string, k: nat)
    requires 4 * k <= Utf16Length(text) <= 4 * k + 3
    ensures Utf16Length(text) == 4 * k ==> EstimateTokens(text) == k
    ensures Utf16Length(text) > 4 * k ==> EstimateTokens(text) == k + 1
    ensures text == [] ==> EstimateTokens(text) == 0
  {
  }

  /** Four emoji are eight code units, so two tokens, although only four characters. */
  lemma FourEmojiExample()
    ensures Utf16Length("😀😀😀😀") == 8
    ensures EstimateTokens("😀😀😀😀") == 2
  {
    var emoji := "😀😀😀😀";
    assert emoji[0] as int >= FIRST_SUPPLEMENTARY;
    assert emoji[1..][0] as int >= FIRST_SUPPLEMENTARY;
    assert emoji[1..][1..][0] as int >= FIRST_SUPPLEMENTARY;
    assert emoji[1..][1..][1..][0] as int >= FIRST_SUPPLEMENTARY;
    assert emoji[1..][1..][1..][1..] == [];
  }

  /** A longer text never has fewer estimated tokens. */
  lemma EstimateTokensMonotone(shorter: string, longer: string)
    requires Utf16Length(shorter) <= Utf16Length(longer)
    ensures EstimateTokens(shorter) <= EstimateTokens(longer)
  {
  }

  /** Appending text never lowers the estimate. */
  lemma EstimateTokensGrowsByAppending(text: string, suffix: string)
    ensures EstimateTokens(text) <= EstimateTokens(text + suffix)
  {
    Utf16LengthConcat(text, suffix);
  }

  /**
   * Estimating two texts separately and adding the counts over-counts the
   * estimate of their concatenation by at most one token.
   */
  lemma SplitEstimate(first: string, second: string)
    ensures EstimateTokens(first + second) <= EstimateTokens(first) + EstimateTokens(second)
    ensures EstimateTokens(first) + EstimateTokens(second) <= EstimateTokens(first + second) + 1
  {
    Utf16LengthConcat(first, second);
  }
}
