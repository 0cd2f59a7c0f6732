/** Case-insensitive substring matching, the only text operation the
    classifier and the decomposer use: no tokenisation, no stemming. */
module Text {

  /** ASCII lowercasing of one character (Unicode case mapping is not modelled). */
  function LowerChar(c: char): char
  {
    if 'A' <= c <= 'Z' then (c as int + 32) as char else c
  }

  function Lower(s: string): (r: string)
    ensures |r| == |s|
    ensures forall i :: 0 <= i < |s| ==> r[i] == LowerChar(s[i])
  {
    seq(|s|, i requires 0 <= i < |s| => LowerChar(s[i]))
  }

  /** `term in text`: a left-to-right scan over the start positions. */
  predicate Contains(text: string, term: string)
    decreases |text|
  {
    |term| <= |text| && (text[..|term|] == term || Contains(text[1..], term))
  }

  /** The declarative reading of `Contains`: some window of `text` spells `term`. */
  ghost predicate OccursAt(text: string, term: string, i: int)
  {
    0 <= i && i + |term| <= |text| && text[i..i + |term|] == term
  }

  lemma {:induction false} ContainsIffOccurs(text: string, term: string)
    ensures Contains(text, term) <==> exists i :: OccursAt(text, term, i)
  {
    if Contains(text, term) {
      ContainsHasOccurrence(text, term);
    }
    if exists i :: OccursAt(text, term, i) {
      var i :| OccursAt(text, term, i);
      OccurrenceIsContained(text, term, i);
    }
  }

  lemma {:induction false} ContainsHasOccurrence(text: string, term: string)
    requires Contains(text, term)
    ensures exists i :: OccursAt(text, term, i)
    decreases |text|
  {
    if text[..|term|] == term {
      assert OccursAt(text, term, 0);
    } else {
      ContainsHasOccurrence(text[1..], term);
      var i :| OccursAt(text[1..], term, i);
      assert text[i + 1..i + 1 + |term|] == text[1..][i..i + |term|];
      assert OccursAt(text, term, i + 1);
    }
  }

  lemma {:induction false} OccurrenceIsContained(text: string, term: string, i: int)
    requires OccursAt(text, term, i)
    ensures Contains(text, term)
    decreases i
  {
    if i > 0 {
      assert text[1..][i - 1..i - 1 + |term|] == text[i..i + |term|];
      OccurrenceIsContained(text[1..], term, i - 1);
    }
  }

  /** A term whose first character never occurs in `text` is not contained in it. */
  lemma {:induction false} FirstCharAbsent(text: string, term: string)
    requires |term| > 0 && term[0] !in text
    ensures !Contains(text, term)
    decreases |text|
  {
    if |term| <= |text| {
      assert text[..|term|][0] == text[0];
      assert text[1..] <= text[1..];
      assert forall c :: c in text[1..] ==> c in text;
      FirstCharAbsent(text[1..], term);
    }
  }

  /** No term of `terms` starts with a character of `text`, so none occurs in it. */
  lemma {:induction false} NoHitByFirstChars(terms: seq<string>, text: string)
    requires forall i :: 0 <= i < |terms| ==> |terms[i]| > 0 && terms[i][0] !in text
    ensures !AnyHit(terms, text)
  {
    if |terms| > 0 {
      FirstCharAbsent(text, terms[0]);
      NoHitByFirstChars(terms[1..], text);
    }
  }

  /** The empty text contains no non-empty term. */
  lemma NothingInEmpty(term: string)
    requires |term| > 0
    ensures !Contains("", term)
  {
  }

  /** The terms of `terms` that occur in `text`, in list order. */
  function Matches(terms: seq<string>, text: string): (r: seq<string>)
    ensures |r| <= |terms|
    ensures forall t :: t in r <==> t in terms && Contains(text, t)
  {
    if |terms| == 0 then []
    else (if Contains(text, terms[0]) then [terms[0]] else []) + Matches(terms[1..], text)
  }

  /** Reference reading of `Matches` by position: the increasing list of the
      positions `from ..` of `terms` whose term occurs in `text`. */
  function MatchPositions(terms: seq<string>, text: string, from: nat): (ps: seq<nat>)
    requires from <= |terms|
    ensures forall j :: 0 <= j < |ps| ==> from <= ps[j] < |terms| && Contains(text, terms[ps[j]])
    ensures forall j, l :: 0 <= j < l < |ps| ==> ps[j] < ps[l]
    ensures forall i :: from <= i < |terms| && Contains(text, terms[i]) ==> i in ps
    decreases |terms| - from
  {
    if from == |terms| then []
    else (if Contains(text, terms[from]) then [from] else []) + MatchPositions(terms, text, from + 1)
  }

  /** `Matches` lists the occurring terms in list order, one entry per occurring
      position, so a term listed twice is counted twice. */
  lemma MatchesInOrder(terms: seq<string>, text: string)
    ensures var r, ps := Matches(terms, text), MatchPositions(terms, text, 0);
            |r| == |ps| && forall j :: 0 <= j < |r| ==> r[j] == terms[ps[j]]
  {
    MatchesFrom(terms, text, 0);
    assert terms[0..] == terms;
  }

  lemma {:induction false} MatchesFrom(terms: seq<string>, text: string, from: nat)
    requires from <= |terms|
    ensures var r, ps := Matches(terms[from..], text), MatchPositions(terms, text, from);
            |r| == |ps| && forall j :: 0 <= j < |r| ==> r[j] == terms[ps[j]]
    decreases |terms| - from
  {
    if from < |terms| {
      MatchesFrom(terms, text, from + 1);
      assert terms[from..][1..] == terms[from + 1..];
      assert terms[from..][0] == terms[from];
      if Contains(text, terms[from]) {
        PrependPosition(terms, from, Matches(terms[from + 1..], text), MatchPositions(terms, text, from + 1));
      }
    }
  }

  /** Putting position `p` in front of a position list keeps it aligned with its term list. */
  lemma PrependPosition(terms: seq<string>, p: nat, r: seq<string>, ps: seq<nat>)
    requires p < |terms|
    requires forall j :: 0 <= j < |ps| ==> ps[j] < |terms|
    requires |r| == |ps| && forall j :: 0 <= j < |r| ==> r[j] == terms[ps[j]]
    ensures var r', ps' := [terms[p]] + r, [p] + ps;
            |r'| == |ps'| && forall j :: 0 <= j < |r'| ==> r'[j] == terms[ps'[j]]
  {
  }

  /** The positions of `terms` whose term occurs in `text`. */
  function OccurringPositions(terms: seq<string>, text: string): set<nat>
  {
    set i: nat | i < |terms| && Contains(text, terms[i])
  }

  /** The number of matches is the number of positions whose term occurs. */
  lemma MatchCount(terms: seq<string>, text: string)
    ensures |Matches(terms, text)| == |OccurringPositions(terms, text)|
  {
    MatchesInOrder(terms, text);
    PositionsCount(terms, text);
  }

  lemma PositionsCount(terms: seq<string>, text: string)
    ensures |MatchPositions(terms, text, 0)| == |OccurringPositions(terms, text)|
  {
    var ps := MatchPositions(terms, text, 0);
    var positions := OccurringPositions(terms, text);
    forall i: nat ensures i in positions <==> i in ps {
      if i in ps {
        var j :| 0 <= j < |ps| && ps[j] == i;
      }
    }
    IncreasingCount(ps, positions);
  }

  /** A strictly increasing list has as many entries as the set of its entries. */
  lemma {:induction false} IncreasingCount(ps: seq<nat>, positions: set<nat>)
    requires forall j, l :: 0 <= j < l < |ps| ==> ps[j] < ps[l]
    requires forall i :: i in positions <==> i in ps
    ensures |positions| == |ps|
  {
    if |ps| > 0 {
      var rest := positions - {ps[0]};
      forall i ensures i in rest <==> i in ps[1..] {
        if i in ps[1..] {
          var l :| 0 <= l < |ps[1..]| && ps[1..][l] == i;
          assert ps[l + 1] == i;
        }
      }
      IncreasingCount(ps[1..], rest);
      assert positions == rest + {ps[0]};
    }
  }

  /** Whether any term of `terms` occurs in `text` (Python's `any(t in text for t in ...)`),
      scanning the terms in order. */
  predicate AnyHit(terms: seq<string>, text: string)
  {
    |terms| > 0 && (Contains(text, terms[0]) || AnyHit(terms[1..], text))
  }

  lemma {:induction false} AnyHitIffSome(terms: seq<string>, text: string)
    ensures AnyHit(terms, text) <==> exists t :: t in terms && Contains(text, t)
  {
    if |terms| > 0 {
      AnyHitIffSome(terms[1..], text);
      if exists t :: t in terms && Contains(text, t) {
        var t :| t in terms && Contains(text, t);
        if t != terms[0] {
          assert t in terms[1..];
        }
      }
    }
  }

  lemma AnyHitIffMatches(terms: seq<string>, text: string)
    ensures AnyHit(terms, text) <==> |Matches(terms, text)| > 0
  {
    AnyHitIffSome(terms, text);
    if AnyHit(terms, text) {
      var t :| t in terms && Contains(text, t);
      assert t in Matches(terms, text);
    }
  }

  /** Some term matches exactly when the list of matches is non-empty. */
  lemma MatchesNonEmpty(terms: seq<string>, text: string)
    ensures |Matches(terms, text)| > 0 <==> exists t :: t in terms && Contains(text, t)
  {
    var r := Matches(terms, text);
    if |r| > 0 {
      assert r[0] in r;
    }
  }
}
