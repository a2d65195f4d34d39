/**
 * The post card of src/components/Post.tsx: the relative time label, the author's initials,
 * and the like and comment toggles. The clock reading and the random initial counts are
 * parameters.
 */
module PostCard {
  import opened Types
  import opened Strings

  const MsPerMinute: int := 60 * 1000
  const MsPerHour: int := 60 * MsPerMinute
  const MsPerDay: int := 24 * MsPerHour

  /** "<n> <unit> ago", with an "s" after the unit when n is more than one: the label opens with
      the count's digits, which read back as `n`, then a space and the unit, and ends in " ago". */
  function Quantity(n: nat, unit: string): (r: string)
    ensures var k := |NatToString(n)|;
      |r| >= k + 1 + |unit| + 4 && IsDigits(r[..k]) && ParseDecimal(r[..k]) == n &&
      r[k] == ' ' && r[k + 1..k + 1 + |unit|] == unit &&
      r[k + 1 + |unit|..] == (if n > 1 then "s" else "") + " ago"
    ensures r[|r| - 4..] == " ago"
  {
    var digits := NatToString(n);
    var r := digits + " " + unit + (if n > 1 then "s" else "") + " ago";
    assert r[..|digits|] == digits;
    r
  }

  /** Floor division by `a` and then by `b` is floor division by `a * b`. */
  lemma DivDiv(x: int, a: int, b: int)
    requires a > 0 && b > 0
    ensures (x / a) / b == x / (a * b)
  {
    var q := x / a;
    var r := x % a;
    var q2 := q / b;
    var r2 := q % b;
    assert x == a * q + r;
    assert q == b * q2 + r2;
    assert a * q == a * (b * q2) + a * r2;
    assert a * (b * q2) == (a * b) * q2;
    MulMono(a, r2, b - 1);
    assert a * (b - 1) == a * b - a;
    DivUnique(x, a * b, q2, a * r2 + r);
  }

  lemma MulMono(a: int, u: int, v: int)
    requires a > 0 && 0 <= u <= v
    ensures 0 <= a * u <= a * v
  {
  }

  lemma DivUnique(x: int, d: int, q: int, r: int)
    requires d > 0 && 0 <= r < d && x == d * q + r
    ensures x / d == q
  {
    var q', r' := x / d, x % d;
    assert d * q' + r' == d * q + r;
    assert d * (q - q') == r' - r;
    MulSmall(d, q - q');
  }

  lemma MulSmall(d: int, k: int)
    requires d > 0 && -d < d * k < d
    ensures k == 0
  {
  }

  /** The label for a post stamped `timestamp` seen at clock `now` (both in milliseconds):
      whole days, else whole hours, else whole minutes, else "Just now". */
  function GetTimeAgo(now: int, timestamp: int): (r: string)
    ensures var d := now - timestamp;
      (d < MsPerMinute ==> r == "Just now") &&
      (MsPerMinute <= d < MsPerHour ==> r == Quantity(d / MsPerMinute, "min")) &&
      (MsPerHour <= d < MsPerDay ==> r == Quantity(d / MsPerHour, "hour")) &&
      (MsPerDay <= d ==> r == Quantity(d / MsPerDay, "day"))
  {
    var d := now - timestamp;
    var seconds := d / 1000;
    var minutes := seconds / 60;
    var hours := minutes / 60;
    var days := hours / 24;
    DivDiv(d, 1000, 60);
    DivDiv(d, MsPerMinute, 60);
    DivDiv(d, MsPerHour, 24);
    if days > 0 then Quantity(days, "day")
    else if hours > 0 then Quantity(hours, "hour")
    else if minutes > 0 then Quantity(minutes, "min")
    else "Just now"
  }

  /** The label is "Just now" exactly when less than a minute has passed, a negative difference
      included. */
  lemma JustNowIffUnderAMinute(now: int, timestamp: int)
    ensures GetTimeAgo(now, timestamp) == "Just now" <==> now - timestamp < MsPerMinute
  {
  }

  /** The unit takes a plural "s" exactly when the count is more than one. */
  lemma PluralIffMoreThanOne(n: nat, unit: string)
    requires unit in {"day", "hour", "min"}
    ensures var q := Quantity(n, unit); q[|q| - 5..] == "s ago" <==> n > 1
  {
    var q := Quantity(n, unit);
    if n <= 1 {
      assert q[|q| - 5] == unit[|unit| - 1];
    } else {
      assert q == (NatToString(n) + " " + unit) + "s ago";
    }
  }

  /** `words.map(w => w[0]).join('')`: an empty word contributes nothing. */
  function FirstLetters(words: seq<string>): string {
    if |words| == 0 then []
    else (if words[0] == [] then [] else [words[0][0]]) + FirstLetters(words[1..])
  }

  /** The characters of `s` that begin a space-separated word; `afterSpace` says whether the
      character before `s` was a space (or `s` is at the start). */
  function WordStarts(s: string, afterSpace: bool): (r: string)
    ensures forall i :: 0 <= i < |r| ==> r[i] != ' '
    ensures |r| <= |s|
  {
    if |s| == 0 then []
    else if s[0] == ' ' then WordStarts(s[1..], true)
    else (if afterSpace then [s[0]] else []) + WordStarts(s[1..], false)
  }

  /** Splitting on spaces and taking each word's first character picks exactly the word starts. */
  lemma {:induction false} FirstLettersAreWordStarts(s: string)
    ensures FirstLetters(Split(s, ' ')) == WordStarts(s, true)
    ensures FirstLetters(Split(s, ' ')[1..]) == WordStarts(s, false)
  {
    if |s| > 0 {
      FirstLettersAreWordStarts(s[1..]);
      var rest := Split(s[1..], ' ');
      if s[0] == ' ' {
        assert Split(s, ' ') == [[]] + rest;
        assert ([[]] + rest)[1..] == rest;
      } else {
        var w := [[s[0]] + rest[0]] + rest[1..];
        assert Split(s, ' ') == w;
        assert w[1..] == rest[1..];
      }
    }
  }

  function Min(a: int, b: int): int {
    if a < b then a else b
  }

  /** The author's initials: the first character of each space-separated word, upper-cased,
      at most two of them. */
  function GetInitials(name: string): (r: string)
    ensures |r| <= 2
    ensures |r| == Min(2, |WordStarts(name, true)|)
    ensures forall i :: 0 <= i < |r| ==> r[i] == UpperChar(WordStarts(name, true)[i])
  {
    FirstLettersAreWordStarts(name);
    var upper := ToUpper(FirstLetters(Split(name, ' ')));
    if |upper| <= 2 then upper else upper[..2]
  }

  class Card {
    const post: Post
    var isLiked: bool
    var likeCount: int
    const commentCount: nat
    var showComments: bool
    /** The random count drawn when the card mounted. */
    ghost const initialLikes: nat

    /** The like count is the initial count plus one while liked. */
    ghost predicate Valid()
      reads this
    {
      likeCount == initialLikes + (if isLiked then 1 else 0)
    }

    /** Mounting a card: not liked, comments hidden, counts drawn below 20 and 10. */
    constructor (post: Post, randomLikes: nat, randomComments: nat)
      requires randomLikes < 20 && randomComments < 10
      ensures Valid() && this.post == post && initialLikes == randomLikes
      ensures !isLiked && likeCount == randomLikes && commentCount == randomComments && !showComments
    {
      this.post := post;
      isLiked := false;
      likeCount := randomLikes;
      commentCount := randomComments;
      showComments := false;
      initialLikes := randomLikes;
    }

    /** Unliking takes one off the count, liking adds one. */
    method HandleLike()
      requires Valid()
      modifies this`isLiked, this`likeCount
      ensures Valid() && likeCount >= 0
      ensures isLiked == !old(isLiked)
      ensures likeCount == if old(isLiked) then old(likeCount) - 1 else old(likeCount) + 1
    {
      if isLiked {
        likeCount := likeCount - 1;
        isLiked := false;
      } else {
        likeCount := likeCount + 1;
        isLiked := true;
      }
    }

    /** Shows or hides the comments. */
    method HandleComment()
      modifies this`showComments
      ensures showComments == !old(showComments)
    {
      showComments := !showComments;
    }

    /** Two likes in a row restore both the flag and the count. */
    method LikeTwiceRestores()
      requires Valid()
      modifies this`isLiked, this`likeCount
      ensures Valid() && isLiked == old(isLiked) && likeCount == old(likeCount)
    {
      HandleLike();
      HandleLike();
    }

    /** Two comment toggles in a row restore the visibility. */
    method CommentTwiceRestores()
      modifies this`showComments
      ensures showComments == old(showComments)
    {
      HandleComment();
      HandleComment();
    }
  }
}
