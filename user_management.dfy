/**
  The user list screen (src/app/user-management.tsx): a non-destructive filter
  that recomputes `filteredUsers` from the `users` it receives whenever either
  the list or the query changes.
*/
module UserManagement {
  import opened Wrappers
  import opened Text
  import opened Seqs
  import opened Types

  /** The filter's callback. The query is lower-cased for the name and e-mail and used as typed for
      the phone number; it is never trimmed. */
  predicate UserMatches(u: User, query: string) {
    || Contains(ToLower(u.firstName + " " + u.lastName), ToLower(query))
    || Contains(ToLower(u.email), ToLower(query))
    || Contains(u.phone, query)
  }

  function UserMatcher(query: string): User -> bool {
    u => UserMatches(u, query)
  }

  /** The value the effect gives `filteredUsers`. */
  function FilteredUsers(users: seq<User>, query: string): (r: seq<User>)
    ensures IsBlank(query) ==> r == users
    ensures !IsBlank(query) ==> IsSubsequence(r, users)
    ensures !IsBlank(query) ==> forall u :: u in r <==> u in users && UserMatches(u, query)
    ensures !IsBlank(query) ==> forall u :: multiset(r)[u] == if UserMatches(u, query) then multiset(users)[u] else 0
    ensures |r| <= |users|
  {
    if IsBlank(query) then users
    else
      FilterIsSubsequence(users, UserMatcher(query));
      FilterMembership(users, UserMatcher(query));
      FilterMultiset(users, UserMatcher(query));
      Filter(users, UserMatcher(query))
  }

  lemma FilterOne(u: User, query: string)
    requires !IsBlank(query)
    ensures FilteredUsers([u], query) == if UserMatches(u, query) then [u] else []
  {
    assert [u][1..] == [];
  }

  lemma FilterTwo(u: User, v: User, query: string)
    requires !IsBlank(query)
    ensures FilteredUsers([u, v], query) ==
      (if UserMatches(u, query) then [u] else []) + (if UserMatches(v, query) then [v] else [])
  {
    FilterPair(u, v, UserMatcher(query));
  }

  /** Lower-casing the concrete texts of the examples below. */
  lemma LowerAnaB()
    ensures ToLower("Ana B") == "ana b"
  {
    assert ToLower("Ana B")[0] == 'a';
    assert ToLower("Ana B")[4] == 'b';
  }

  lemma LowerSpacedAna()
    ensures ToLower(" ana") == " ana"
  {
    assert ToLower(" ana")[0] == ' ';
  }

  /** The lower-cased full name of the user "Ana" "B". */
  lemma AnaBFullName(u: User)
    requires u.firstName == "Ana" && u.lastName == "B"
    ensures ToLower(u.firstName + " " + u.lastName) == "ana b"
  {
    assert u.firstName + " " + u.lastName == "Ana B";
    LowerAnaB();
  }

  lemma AnaBMatchesAna(u: User)
    requires u.firstName == "Ana" && u.lastName == "B" && u.email == "" && u.phone == ""
    ensures UserMatches(u, "ana")
  {
    AnaBFullName(u);
    assert ToLower("ana") == "ana";
    assert "ana" <= "ana b";
  }

  /** " ana" does not occur in the suffixes of "ana b", shortest first. */
  lemma SpacedAnaNotInB()
    ensures !Contains("b", " ana")
  {
    assert "b"[1..] == "";
  }

  lemma SpacedAnaNotInAB()
    ensures !Contains("a b", " ana")
  {
    SpacedAnaNotInB();
    assert " b"[1..] == "b";
    assert "a b"[1..] == " b";
  }

  lemma SpacedAnaNotInAnaB()
    ensures !Contains("ana b", " ana")
  {
    SpacedAnaNotInAB();
    assert "na b"[1..] == "a b";
    assert " ana"[0] != "na b"[0];
    assert "ana b"[1..] == "na b";
    assert " ana"[0] != "ana b"[0];
  }

  lemma AnaBMissesSpacedAna(u: User)
    requires u.firstName == "Ana" && u.lastName == "B" && u.email == "" && u.phone == ""
    ensures !UserMatches(u, " ana")
  {
    AnaBFullName(u);
    LowerSpacedAna();
    assert ToLower("") == "";
    SpacedAnaNotInAnaB();
  }

  /** A query that only differs by a leading space selects fewer users: " ana" misses the user
      whose name starts with "Ana", which "ana" finds. */
  lemma QueryIsNotTrimmed(u: User)
    requires u.firstName == "Ana" && u.lastName == "B" && u.email == "" && u.phone == ""
    ensures FilteredUsers([u], "ana") == [u]
    ensures FilteredUsers([u], " ana") == []
  {
    assert !IsBlank("ana") by {
      assert !IsWhitespace("ana"[0]);
    }
    assert !IsBlank(" ana") by {
      assert !IsWhitespace(" ana"[1]);
    }
    AnaBMatchesAna(u);
    AnaBMissesSpacedAna(u);
    FilterOne(u, "ana");
    FilterOne(u, " ana");
  }

  lemma AnaMatchesUpperAna(ana: User)
    requires ana.firstName == "Ana" && ana.lastName == "" && ana.email == "" && ana.phone == ""
    ensures UserMatches(ana, "ANA")
  {
    assert ana.firstName + " " + ana.lastName == "Ana ";
    assert ToLower("Ana ") == "ana ";
    assert ToLower("ANA") == "ana";
    assert "ana" <= "ana ";
  }

  /** The lower-cased full name of the user "Bob" "". */
  lemma BobFullName(bob: User)
    requires bob.firstName == "Bob" && bob.lastName == ""
    ensures ToLower(bob.firstName + " " + bob.lastName) == "bob "
  {
    assert bob.firstName + " " + bob.lastName == "Bob ";
    assert ToLower("Bob ")[0] == 'b';
  }

  lemma LowerUpperAna()
    ensures ToLower("ANA") == "ana"
  {
    assert ToLower("ANA")[0] == 'a';
  }

  /** "ana" occurs neither in "bob " nor in "b@x". */
  lemma AnaNotInBob()
    ensures !Contains("bob ", "ana")
  {
    assert "ana"[0] != "bob "[0];
    assert "bob "[1..] == "ob ";
    assert "ana"[0] != "ob "[0];
    assert "ob "[1..] == "b ";
  }

  lemma AnaNotInBx()
    ensures !Contains("b@x", "ana")
  {
    assert "ana"[0] != "b@x"[0];
  }

  lemma BobMissesAna(bob: User)
    requires bob.firstName == "Bob" && bob.lastName == "" && bob.email == "b@x" && bob.phone == ""
    ensures !UserMatches(bob, "ANA")
  {
    BobFullName(bob);
    assert ToLower("b@x") == "b@x";
    LowerUpperAna();
    AnaNotInBob();
    AnaNotInBx();
  }

  /** The case-insensitive search: "ANA" selects Ana and not Bob. */
  lemma SearchIsCaseInsensitive(ana: User, bob: User)
    requires ana.firstName == "Ana" && ana.lastName == "" && ana.email == "" && ana.phone == ""
    requires bob.firstName == "Bob" && bob.lastName == "" && bob.email == "b@x" && bob.phone == ""
    ensures FilteredUsers([ana, bob], "ANA") == [ana]
  {
    assert !IsBlank("ANA") by {
      assert !IsWhitespace("ANA"[0]);
    }
    AnaMatchesUpperAna(ana);
    BobMissesAna(bob);
    FilterTwo(ana, bob, "ANA");
  }

  /** The search bar as wired: the bar gives the input its `onSearch` prop, while this screen
      passes `onChange`, so the input has no change handler and `userSearch` keeps its initial
      "" whatever is typed. The list then shows every user: after typing "ANA" over Ana and Bob,
      Bob is still listed without matching it. */
  lemma TypingDoesNotNarrowAsWired(ana: User, bob: User)
    requires ana.firstName == "Ana" && ana.lastName == "" && ana.email == "" && ana.phone == ""
    requires bob.firstName == "Bob" && bob.lastName == "" && bob.email == "b@x" && bob.phone == ""
    ensures FilteredUsers([ana, bob], "") == [ana, bob]
    ensures !UserMatches(bob, "ANA")
  {
    assert IsBlank("");
    BobMissesAna(bob);
  }

  class UserManagement {
    /** The `users` prop. */
    var users: seq<User>
    var userSearch: string
    var filteredUsers: seq<User>

    /** The first render, with its effect already run: the empty query shows every user. */
    constructor (users: seq<User>)
      ensures this.users == users && userSearch == "" && filteredUsers == users
      ensures Valid()
    {
      this.users := users;
      userSearch := "";
      filteredUsers := users;
      assert IsBlank("");
    }

    /** Invariant kept by the effect: the displayed list is the filter of the current props. */
    ghost predicate Valid()
      reads this
    {
      filteredUsers == FilteredUsers(users, userSearch)
    }

    /** New `users` or `userSearch`, and the effect `[users, userSearch]`. Wired to the search
        bar, each keystroke would be an `Update` with the typed text. */
    method Update(users: seq<User>, query: string)
      modifies this
      ensures this.users == users && userSearch == query
      ensures Valid()
    {
      this.users := users;
      userSearch := query;
      filteredUsers := FilteredUsers(users, query);
    }

    /** The search bar's "result count of total count". */
    method Counts() returns (resultCount: nat, totalCount: nat)
      requires Valid()
      ensures resultCount == |filteredUsers| && totalCount == |users|
      ensures resultCount <= totalCount
    {
      resultCount := |filteredUsers|;
      totalCount := |users|;
    }
  }
}
