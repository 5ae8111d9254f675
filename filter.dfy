/**
 * The computed property `filteredParties`: the whole list for an empty
 * search text, otherwise the parties whose lower-cased name contains the
 * lower-cased search text, in list order.
 */
module Filter {
  import opened Wrappers
  import opened Text
  import opened Parties

  /** The filter's test: the lower-cased name contains the lower-cased search text. */
  function Matches(p: Party, searchText: string): (b: bool)
    ensures b ==> |searchText| <= |p.name|
    ensures Lowercased(searchText) == Lowercased(p.name) ==> b
  {
    ContainsSelf(Lowercased(p.name));
    Contains(Lowercased(p.name), Lowercased(searchText))
  }

  /** A party matches exactly when the lower-cased text occurs somewhere in its lower-cased name. */
  lemma MatchesIffOccurs(p: Party, searchText: string)
    ensures Matches(p, searchText) <==> exists i :: OccursAt(Lowercased(p.name), Lowercased(searchText), i)
  {
    ContainsIffOccurs(Lowercased(p.name), Lowercased(searchText));
  }

  /** Keeps, in their order, the parties that match the search text. */
  function FilterByName(parties: seq<Party>, searchText: string): (r: seq<Party>)
    ensures |r| <= |parties|
    ensures forall i :: 0 <= i < |r| ==> r[i] in parties && Matches(r[i], searchText)
    ensures forall p :: p in parties && Matches(p, searchText) ==> p in r
    decreases |parties|
  {
    if parties == [] then []
    else if Matches(parties[0], searchText) then [parties[0]] + FilterByName(parties[1..], searchText)
    else FilterByName(parties[1..], searchText)
  }

  /** `filteredParties` for the given state. */
  function FilteredParties(parties: seq<Party>, searchText: string): (r: seq<Party>)
    ensures searchText == "" ==> r == parties
    ensures searchText != "" ==> forall p :: p in r <==> p in parties && Matches(p, searchText)
    ensures |r| <= |parties|
  {
    if |searchText| == 0 then parties else FilterByName(parties, searchText)
  }

  /** `a` is `b` with some elements removed, the rest kept in order. */
  ghost predicate IsSubsequence(a: seq<Party>, b: seq<Party>)
    decreases |b|
  {
    a == [] || (b != [] && ((a[0] == b[0] && IsSubsequence(a[1..], b[1..])) || IsSubsequence(a, b[1..])))
  }

  lemma {:induction false} FilterByNameIsSubsequence(parties: seq<Party>, searchText: string)
    ensures IsSubsequence(FilterByName(parties, searchText), parties)
    decreases |parties|
  {
    if parties != [] {
      FilterByNameIsSubsequence(parties[1..], searchText);
      var r := FilterByName(parties, searchText);
      if Matches(parties[0], searchText) {
        assert r[1..] == FilterByName(parties[1..], searchText);
      }
    }
  }

  lemma FilteredPartiesIsSubsequence(parties: seq<Party>, searchText: string)
    ensures IsSubsequence(FilteredParties(parties, searchText), parties)
  {
    if searchText == "" {
      SubsequenceReflexive(parties);
    } else {
      FilterByNameIsSubsequence(parties, searchText);
    }
  }

  lemma {:induction false} SubsequenceReflexive(s: seq<Party>)
    ensures IsSubsequence(s, s)
    decreases |s|
  {
    if s != [] {
      SubsequenceReflexive(s[1..]);
    }
  }

  /**
   * Each party occurs in the result exactly as often as in the list when it
   * matches, and not at all otherwise.
   */
  lemma {:induction false} FilterByNameCounts(parties: seq<Party>, searchText: string, p: Party)
    ensures multiset(FilterByName(parties, searchText))[p]
         == if Matches(p, searchText) then multiset(parties)[p] else 0
    decreases |parties|
  {
    if parties != [] {
      var rest := parties[1..];
      FilterByNameCounts(rest, searchText, p);
      assert parties == [parties[0]] + rest;
      assert multiset(parties) == multiset([parties[0]]) + multiset(rest);
      var r := FilterByName(parties, searchText);
      if Matches(parties[0], searchText) {
        assert r == [parties[0]] + FilterByName(rest, searchText);
        assert multiset(r) == multiset([parties[0]]) + multiset(FilterByName(rest, searchText));
      } else {
        assert r == FilterByName(rest, searchText);
      }
    }
  }

  /** Filtering a filtered list again with the same text changes nothing. */
  lemma {:induction false} FilterByNameIdempotent(parties: seq<Party>, searchText: string)
    ensures FilterByName(FilterByName(parties, searchText), searchText) == FilterByName(parties, searchText)
    decreases |parties|
  {
    if parties != [] {
      FilterByNameIdempotent(parties[1..], searchText);
      var r := FilterByName(parties, searchText);
      if Matches(parties[0], searchText) {
        assert r[0] == parties[0] && r[1..] == FilterByName(parties[1..], searchText);
      }
    }
  }

  /** Filtering after a head insertion filters the old list and keeps the new head when it matches. */
  lemma FilterAfterInsert(p: Party, parties: seq<Party>, searchText: string)
    ensures FilteredParties([p] + parties, searchText)
         == if searchText == "" || Matches(p, searchText) then [p] + FilteredParties(parties, searchText)
            else FilteredParties(parties, searchText)
  {
  }

  /** A party just inserted is the first result of a search for its own name, in any letter case. */
  lemma SearchOwnNameAfterInsert(p: Party, parties: seq<Party>, searchText: string)
    requires Lowercased(searchText) == Lowercased(p.name)
    ensures var r := FilteredParties([p] + parties, searchText); |r| > 0 && r[0] == p
  {
  }

  /** Insert "Neon", then "80s": "eo" finds only "Neon", "" lists both, newest first. */
  lemma SearchExample(neon: Party, eighties: Party)
    requires neon.name == "Neon" && eighties.name == "80s"
    ensures FilteredParties([eighties, neon], "eo") == [neon]
    ensures FilteredParties([eighties, neon], "") == [eighties, neon]
  {
    assert Lowercased("eo") == "eo";
    assert Lowercased("Neon") == "neon";
    assert Lowercased("80s") == "80s";
    assert "neon"[1..] == "eon" && "eon"[..2] == "eo";
    assert Contains("neon", "eo");
    assert "80s"[1..] == "0s" && "0s"[1..] == "s";
    assert !StartsWith("80s", "eo") by { assert "80s"[..2][0] == '8'; }
    assert !StartsWith("0s", "eo") by { assert "0s"[..2][0] == '0'; }
    assert !Contains("s", "eo");
    assert !Contains("80s", "eo");
    assert !Matches(eighties, "eo") && Matches(neon, "eo");
    assert [eighties, neon][1..] == [neon] && [neon][1..] == [];
    assert FilterByName([neon], "eo") == [neon];
    assert FilterByName([eighties, neon], "eo") == FilterByName([neon], "eo");
  }
}
