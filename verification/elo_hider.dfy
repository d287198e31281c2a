/** Pikachu's Elo hider (`src/subtools/pikachus_elo_hider/inject.js`).

    In every battle room the battle log's `add` is wrapped: a `raw` entry announcing a
    rating change (`/'s rating: \d+/`) is dropped, every other entry reaches the original
    `add`. With the `hideTooltip` option, the two sidebar updates are wrapped too, and after
    each one every trainer sprite's title is replaced. */
module EloHider {
  import Strings

  const RATING: string := "'s rating: "
  const HIDDEN_TITLE: string := "Rating: [hidden by Pikachu's Elo Hider]"

  /** Only battle rooms are changed. */
  predicate IsBattleRoom(roomId: string) {
    Strings.StartsWith(roomId, "battle-")
  }

  /** `'s rating: ` followed by a digit starts at index `i` of `s`. */
  predicate RatingAt(s: string, i: nat) {
    Strings.OccursAt(s, RATING, i) && i + |RATING| < |s| && '0' <= s[i + |RATING|] <= '9'
  }

  /** Dropping the first character moves every match one place to the left. */
  lemma RatingAtShift(s: string, i: nat)
    requires i < |s| - 1
    ensures RatingAt(s, i + 1) <==> RatingAt(s[1..], i)
  {
    var t, n := s[1..], |RATING|;
    if i + 1 + n <= |s| {
      var a, b := s[i + 1..i + 1 + n], t[i..i + n];
      assert |a| == n == |b|;
      forall j | 0 <= j < n ensures a[j] == b[j] {
        assert a[j] == s[i + 1 + j] && b[j] == t[i + j];
      }
      assert a == b;
    }
    if i + 1 + n < |s| {
      assert s[i + 1 + n] == t[i + n];
    }
  }

  /** `/'s rating: \d+/.test(s)`: the regular expression is not anchored, so it matches when
      some position starts the text and a digit. */
  function MentionsRating(s: string): (r: bool)
    ensures r <==> exists i :: 0 <= i < |s| && RatingAt(s, i)
    decreases |s|
  {
    if |s| <= |RATING| then
      assert forall i :: 0 <= i < |s| ==> !RatingAt(s, i);
      false
    else if RatingAt(s, 0) then true
    else
      var rest := MentionsRating(s[1..]);
      assert forall i :: 0 <= i < |s| - 1 ==> (RatingAt(s, i + 1) <==> RatingAt(s[1..], i)) by {
        forall i | 0 <= i < |s| - 1 ensures RatingAt(s, i + 1) <==> RatingAt(s[1..], i) {
          RatingAtShift(s, i);
        }
      }
      assert rest ==> exists i :: 0 <= i < |s| && RatingAt(s, i) by {
        if rest {
          var i :| 0 <= i < |s| - 1 && RatingAt(s[1..], i);
          assert RatingAt(s, i + 1);
        }
      }
      assert (exists i :: 0 <= i < |s| && RatingAt(s, i)) ==> rest by {
        if exists i :: 0 <= i < |s| && RatingAt(s, i) {
          var i :| 0 <= i < |s| && RatingAt(s, i);
          assert i != 0;
          assert RatingAt(s[1..], i - 1);
        }
      }
      rest
  }

  /** The wrapped `add` drops an entry exactly when it is a `raw` rating message. */
  predicate Suppressed(command: string, message: string) {
    command == "raw" && MentionsRating(message)
  }

  /** A rating message in any other command is kept. */
  lemma OnlyRawSuppressed(command: string, message: string)
    requires command != "raw"
    ensures !Suppressed(command, message)
  {
  }

  /** The usual rating line, `<name>'s rating: <old> &rarr; <new>`, is suppressed. */
  lemma RatingLineSuppressed(name: string, digits: string, rest: string)
    requires digits != [] && Strings.IsDigits(digits)
    ensures Suppressed("raw", name + RATING + digits + rest)
  {
    var s := name + RATING + digits + rest;
    assert s[|name|..|name| + |RATING|] == RATING;
    assert s[|name| + |RATING|] == digits[0];
    assert RatingAt(s, |name|);
  }

  /** The battle log with the wrapped `add`: `added` is what reached the original `add`. */
  class WrappedLog {
    var added: seq<(string, string)>

    constructor()
      ensures added == []
    {
      added := [];
    }

    /** `battleLog.add(args)`: a rating message is dropped, anything else passed on
        unchanged. */
    method Add(command: string, message: string)
      modifies this
      ensures Suppressed(command, message) ==> added == old(added)
      ensures !Suppressed(command, message) ==> added == old(added) + [(command, message)]
    {
      if command == "raw" && MentionsRating(message) {
        return;
      }
      added := added + [(command, message)];
    }
  }

  /** The trainer sprites' titles after a sidebar update: the original update draws
      `drawn`, then the wrapper, installed only with `hideTooltip`, overwrites every title. */
  function SidebarTitles(hideTooltip: bool, drawn: seq<string>): (r: seq<string>)
    ensures |r| == |drawn|
    ensures !hideTooltip ==> r == drawn
    ensures hideTooltip ==> forall i :: 0 <= i < |r| ==> r[i] == HIDDEN_TITLE
  {
    if hideTooltip then seq(|drawn|, _ => HIDDEN_TITLE) else drawn
  }
}
