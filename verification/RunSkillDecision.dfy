/** How the model's answer in a check-in is read: blanks around it and its case do not matter. */
module RunSkillDecision {
  import opened RunSkill

  predicate AllBlank(s: string) { forall i :: 0 <= i < |s| ==> Blank(s[i]) }

  /** Nothing to strip. */
  predicate Bare(s: string) { s != [] ==> !Blank(s[0]) && !Blank(s[|s| - 1]) }

  /** The beginning of s is this word, which is in capitals, in whatever case. */
  predicate Begins(s: string, word: string) {
    |word| <= |s| && forall i :: 0 <= i < |word| ==>
      s[i] == word[i] || ('A' <= word[i] <= 'Z' && s[i] == word[i] + ' ')
  }

  /** Stripping takes away exactly the blanks on both sides. */
  lemma {:induction false} StripIs(a: string, s: string, b: string)
    requires AllBlank(a) && AllBlank(b) && Bare(s)
    ensures Strip(a + s + b) == s
    decreases |a| + |b|
  {
    var all := a + s + b;
    if a != [] {
      assert all[1..] == a[1..] + s + b;
      StripIs(a[1..], s, b);
    } else if b != [] {
      var front := b[..|b| - 1];
      assert all[..|all| - 1] == a + s + front && all[|all| - 1] == b[|b| - 1];
      if s == [] {
        assert all == b && all[1..] == a + s + b[1..];
        StripIs(a, s, b[1..]);
      } else {
        StripIs(a, s, front);
      }
    } else {
      assert all == s;
    }
  }

  /** What is left of any string after stripping, and what was around it. */
  lemma {:induction false} Stripped(s: string) returns (a: string, b: string)
    ensures s == a + Strip(s) + b && AllBlank(a) && AllBlank(b) && Bare(Strip(s))
    decreases |s|
  {
    a, b := "", "";
    if s != [] && Blank(s[0]) {
      a, b := Stripped(s[1..]);
      assert s == [s[0]] + s[1..];
      a := [s[0]] + a;
    } else if s != [] && Blank(s[|s| - 1]) {
      a, b := Stripped(s[..|s| - 1]);
      assert s == s[..|s| - 1] + [s[|s| - 1]];
      b := b + [s[|s| - 1]];
    }
  }

  lemma UpperBegins(s: string, word: string)
    requires forall i :: 0 <= i < |word| ==> !('a' <= word[i] <= 'z')
    ensures word <= Upper(s) <==> Begins(s, word)
  {
    if |word| <= |s| {
      var u := Upper(s);
      assert word <= u <==> forall i :: 0 <= i < |word| ==> u[i] == word[i];
      forall i | 0 <= i < |word|
        ensures u[i] == word[i] <==> s[i] == word[i] || ('A' <= word[i] <= 'Z' && s[i] == word[i] + ' ')
      {
      }
    }
  }

  /**
   * The decision, for an answer `said` with blanks around it: a question if it begins with ASK: and
   * asks something, and asking is still allowed; else to wait if it begins with WAIT; else to retry.
   */
  lemma DecisionIs(a: string, said: string, b: string, allow: bool)
    requires AllBlank(a) && AllBlank(b) && Bare(said)
    ensures var d := Decide(a + said + b, allow);
      && (d.Wait? <==> Begins(said, "WAIT"))
      && (d.FollowUp? <==> allow && Begins(said, "ASK:") && !AllBlank(said[4..]))
      && (d.FollowUp? ==> Asks(said[4..], d.question))
  {
    StripIs(a, said, b);
    UpperBegins(said, "WAIT");
    UpperBegins(said, "ASK:");
    if Begins(said, "ASK:") {
      var x, y := Stripped(said[4..]);
      assert AllBlank(said[4..]) <==> Strip(said[4..]) == [];
    }
  }

  /** q is what `rest` says, without the blanks around it. */
  ghost predicate Asks(rest: string, q: string) {
    q != [] && Bare(q) && exists a, b :: rest == a + q + b && AllBlank(a) && AllBlank(b)
  }
}
