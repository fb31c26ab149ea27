/**
 * The explanations shown under each prediction: the risk bucket and its
 * sentence, the approval verdict and its sentence, and the lower-casing of
 * the feature names they mention.
 */
module Narrative {
  import opened Results

  datatype RiskBucket = Low | Medium | High

  /**
   * The bucket a risk score falls in. The three cases are exhaustive and
   * mutually exclusive: Low below 40, Medium from 40 up to 70, High from 70.
   */
  function BucketOf(score: real): (b: RiskBucket)
    ensures b == Low <==> score < 40.0
    ensures b == Medium <==> 40.0 <= score < 70.0
    ensures b == High <==> 70.0 <= score
  {
    if score < 40.0 then Low
    else if 40.0 <= score < 70.0 then Medium
    else High
  }

  predicate IsUpper(c: char) {
    'A' <= c <= 'Z'
  }

  /** `str.lower` on one character of a column name (ASCII letters). */
  function LowerChar(c: char): (d: char)
    ensures !IsUpper(d)
    ensures IsUpper(c) ==> d as int == c as int + 32
    ensures !IsUpper(c) ==> d == c
  {
    if IsUpper(c) then (c as int + 32) as char else c
  }

  /** `str.lower` on a column name. */
  function Lower(s: string): (t: string)
    ensures |t| == |s|
    ensures forall i :: 0 <= i < |s| ==> t[i] == LowerChar(s[i])
  {
    seq(|s|, i requires 0 <= i < |s| => LowerChar(s[i]))
  }

  /** Lower-casing twice is lower-casing once. */
  lemma LowerIdempotent(s: string)
    ensures Lower(Lower(s)) == Lower(s)
  {
  }

  /** `text` holds `word` starting at position `at`. */
  predicate OccursAt(text: string, word: string, at: nat) {
    at + |word| <= |text| && text[at..at + |word|] == word
  }

  /** `text` mentions `first` and, after it, `second`. */
  predicate MentionsInOrder(text: string, first: string, second: string) {
    exists i, j | 0 <= i <= j <= |text| :: OccursAt(text, first, i) && OccursAt(text, second, j) && i + |first| <= j
  }

  /** `text` mentions `first`, then `second`, then `third`. */
  predicate MentionsThreeInOrder(text: string, first: string, second: string, third: string) {
    exists i, j, k | 0 <= i <= j <= k <= |text| ::
      && OccursAt(text, first, i) && OccursAt(text, second, j) && OccursAt(text, third, k)
      && i + |first| <= j && j + |second| <= k
  }

  /** A word placed between two texts occurs right after the first. */
  lemma OccursBetween(before: string, word: string, after: string)
    ensures OccursAt(before + word + after, word, |before|)
  {
    assert (before + word + after)[|before|..|before| + |word|] == word;
  }

  /** A template with two slots mentions what fills them, in slot order. */
  lemma TwoSlotsMentioned(opening: string, one: string, join: string, two: string, close: string)
    ensures MentionsInOrder(opening + one + join + two + close, one, two)
  {
    var text := opening + one + join + two + close;
    assert text == opening + one + (join + two + close);
    OccursBetween(opening, one, join + two + close);
    assert text == opening + one + join + two + close;
    OccursBetween(opening + one + join, two, close);
    assert OccursAt(text, one, |opening|) && OccursAt(text, two, |opening + one + join|);
  }

  /** A template with three slots mentions what fills them, in slot order. */
  lemma ThreeSlotsMentioned(opening: string, one: string, join: string, two: string, mid: string, three: string, close: string)
    ensures MentionsThreeInOrder(opening + (one + join + two + mid + three + close), one, two, three)
  {
    var text := opening + (one + join + two + mid + three + close);
    assert text == opening + one + (join + two + mid + three + close);
    OccursBetween(opening, one, join + two + mid + three + close);
    assert text == opening + one + join + two + (mid + three + close);
    OccursBetween(opening + one + join, two, mid + three + close);
    OccursBetween(opening + one + join + two + mid, three, close);
    var i, j, k := |opening|, |opening + one + join|, |opening + one + join + two + mid|;
    assert OccursAt(text, one, i) && OccursAt(text, two, j) && OccursAt(text, three, k);
  }

  /** Marker that opens the risk sentence of each bucket. */
  function BucketMarker(b: RiskBucket): char {
    match b
    case Low => '\U{1F7E2}'
    case Medium => '\U{1F7E0}'
    case High => '\U{1F534}'
  }

  /** Reads the bucket back from a risk sentence's leading marker. */
  function BucketNamedIn(reason: string): (b: Option<RiskBucket>)
    ensures b.Some? ==> |reason| > 0 && BucketMarker(b.value) == reason[0]
  {
    if |reason| == 0 then None
    else if reason[0] == BucketMarker(Low) then Some(Low)
    else if reason[0] == BucketMarker(Medium) then Some(Medium)
    else if reason[0] == BucketMarker(High) then Some(High)
    else None
  }

  function RiskOpening(b: RiskBucket): string {
    match b
    case Low => [BucketMarker(Low)] + " Low Risk \U{2014} strong "
    case Medium => [BucketMarker(Medium)] + " Medium Risk \U{2014} mainly influenced by "
    case High => [BucketMarker(High)] + " High Risk \U{2014} driven by high "
  }

  function RiskJoin(b: RiskBucket): string {
    match b
    case Low => " and solid "
    case Medium => " and "
    case High => " and "
  }

  /**
   * The risk sentence for a bucket and the two top features. The bucket can be
   * read back from it, and it names both features, lower-cased, in rank order.
   */
  function RiskReason(b: RiskBucket, first: string, second: string): (reason: string)
    ensures BucketNamedIn(reason) == Some(b)
    ensures MentionsInOrder(reason, Lower(first), Lower(second))
  {
    var opening, one, join, two := RiskOpening(b), Lower(first), RiskJoin(b), Lower(second);
    TwoSlotsMentioned(opening, one, join, two, ".");
    opening + one + join + two + "."
  }

  /** Reads the verdict back from a verdict line's leading mark. */
  function VerdictNamedIn(text: string): (approved: Option<bool>)
    ensures approved.Some? ==> |text| > 0
  {
    if |text| == 0 then None
    else if text[0] == '\U{2705}' then Some(true)
    else if text[0] == '\U{274C}' then Some(false)
    else None
  }

  /**
   * The verdict line: chosen by the predicted label alone, and the verdict can
   * be read back from it.
   */
  function ResultText(predicted: int): (text: string)
    ensures VerdictNamedIn(text) == Some(predicted == 1)
    ensures predicted == 1 ==> text == "\U{2705} Approved"
    ensures predicted != 1 ==> text == "\U{274C} Denied"
  {
    if predicted == 1 then "\U{2705} Approved" else "\U{274C} Denied"
  }

  const ApprovedOpening: string := "The application was approved mainly because of strong "
  const DeniedOpening: string := "The application was denied mainly due to a high "

  /** Reads the verdict back from an approval sentence's opening words. */
  function ApprovalNamedIn(reason: string): (approved: Option<bool>)
  {
    if |ApprovedOpening| <= |reason| && reason[..|ApprovedOpening|] == ApprovedOpening then Some(true)
    else if |DeniedOpening| <= |reason| && reason[..|DeniedOpening|] == DeniedOpening then Some(false)
    else None
  }

  /** The opening words of an approval sentence give its verdict away. */
  lemma VerdictReadBack(approved: bool, rest: string)
    ensures ApprovalNamedIn((if approved then ApprovedOpening else DeniedOpening) + rest) == Some(approved)
  {
    var opening := if approved then ApprovedOpening else DeniedOpening;
    var reason := opening + rest;
    assert reason[..|opening|] == opening;
    if !approved && |ApprovedOpening| <= |reason| {
      assert reason[20] == 'd' && ApprovedOpening[20] == 'a';
      assert reason[..|ApprovedOpening|][20] != ApprovedOpening[20];
    }
  }

  /**
   * The approval sentence for a verdict and the three top features, the first
   * being the main factor. The verdict can be read back from it, and it names
   * the three features, lower-cased, in rank order.
   */
  function ApprovalReason(approved: bool, main: string, second: string, third: string): (reason: string)
    ensures ApprovalNamedIn(reason) == Some(approved)
    ensures MentionsThreeInOrder(reason, Lower(main), Lower(second), Lower(third))
  {
    var opening := if approved then ApprovedOpening else DeniedOpening;
    var join := if approved then ", along with positive effects from " else ", as well as negative impact from ";
    var one, two, three := Lower(main), Lower(second), Lower(third);
    var rest := one + join + two + " and " + three + ".";
    ThreeSlotsMentioned(opening, one, join, two, " and ", three, ".");
    VerdictReadBack(approved, rest);
    opening + rest
  }
}
