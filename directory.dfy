/**
 * The home screen's user directory: every profile except the caller's,
 * narrowed by a case-insensitive substring search on the display name.
 */
module Directory {
  import opened Options
  import opened Text
  import opened Lists
  import opened Profiles

  /** `querySnapshot.docs.map(doc => ({ id: doc.id, ...doc.data() }))`. */
  function ToRecords(docs: seq<UserDoc>): (records: seq<UserRecord>)
    ensures |records| == |docs|
    ensures forall i :: 0 <= i < |docs| ==> records[i] == ToRecord(docs[i])
  {
    seq(|docs|, i requires 0 <= i < |docs| => ToRecord(docs[i]))
  }

  /** The second filter: a blank search keeps everyone, otherwise the lower-cased name must contain the lower-cased trimmed search. */
  predicate MatchesSearch(user: UserRecord, searchText: string): (m: bool)
    ensures AllWhitespace(searchText) ==> m
    ensures !AllWhitespace(searchText) ==>
              (m <==> user.name.Some? && Contains(Lower(user.name.value), Lower(Trim(searchText))))
  {
    || Trim(searchText) == ""
    || (user.name.Some? && user.name.value != "" && Contains(Lower(user.name.value), Lower(Trim(searchText))))
  }

  /** The first filter, `user => user.uid !== auth.currentUser?.uid`. */
  function NotCaller(caller: Option<string>): (keep: UserRecord -> bool)
    ensures forall u :: keep(u) <==> u.uid != caller
  {
    (u: UserRecord) => u.uid != caller
  }

  /** The second filter, as a function value. */
  function Matching(searchText: string): (keep: UserRecord -> bool)
    ensures forall u :: keep(u) <==> MatchesSearch(u, searchText)
  {
    (u: UserRecord) => MatchesSearch(u, searchText)
  }

  /**
   * The list `fetchUsers(searchText)` stores in `users`: the records of the
   * fetched documents, in fetched order, without the caller's own uid and
   * without names that do not match the search.
   */
  function FilterUsers(docs: seq<UserDoc>, caller: Option<string>, searchText: string): (users: seq<UserRecord>)
    ensures forall u :: u in users ==> u.uid != caller
    ensures !AllWhitespace(searchText) ==>
              forall u :: u in users ==> u.name.Some? && Contains(Lower(u.name.value), Lower(Trim(searchText)))
    ensures forall u :: u in users <==> u in ToRecords(docs) && u.uid != caller && MatchesSearch(u, searchText)
    ensures IsSubsequence(users, ToRecords(docs))
  {
    var records := ToRecords(docs);
    var others := Filter(records, NotCaller(caller));
    var users := Filter(others, Matching(searchText));
    SubsequenceTransitive(users, others, records);
    assert forall u :: u in users ==> u in records && u.uid != caller && MatchesSearch(u, searchText);
    users
  }

  /** Reference definition: the records of every document whose uid is not the caller's, in order. */
  function Others(docs: seq<UserDoc>, caller: Option<string>): seq<UserRecord> {
    if docs == [] then []
    else if docs[0].data.uid != caller then [ToRecord(docs[0])] + Others(docs[1..], caller)
    else Others(docs[1..], caller)
  }

  lemma {:induction false} OthersIsFilter(docs: seq<UserDoc>, caller: Option<string>)
    ensures Others(docs, caller) == Filter(ToRecords(docs), NotCaller(caller))
  {
    if docs != [] {
      OthersIsFilter(docs[1..], caller);
      assert ToRecords(docs)[1..] == ToRecords(docs[1..]);
    }
  }

  /** With a blank search the list is exactly everyone but the caller, in fetched order. */
  lemma BlankSearchListsOthers(docs: seq<UserDoc>, caller: Option<string>, searchText: string)
    requires AllWhitespace(searchText)
    ensures FilterUsers(docs, caller, searchText) == Others(docs, caller)
  {
    var others := Filter(ToRecords(docs), NotCaller(caller));
    FilterKeepsAll(others, Matching(searchText));
    OthersIsFilter(docs, caller);
  }

  /** Two searches that differ only in letter case list the same users. */
  lemma SearchIgnoresCase(docs: seq<UserDoc>, caller: Option<string>, search1: string, search2: string)
    requires Lower(search1) == Lower(search2)
    ensures FilterUsers(docs, caller, search1) == FilterUsers(docs, caller, search2)
  {
    TrimLower(search1);
    TrimLower(search2);
    assert Lower(Trim(search1)) == Lower(Trim(search2));
    assert |Trim(search1)| == |Lower(Trim(search1))|;
    assert |Trim(search2)| == |Lower(Trim(search2))|;
    var others := Filter(ToRecords(docs), NotCaller(caller));
    FilterCongruent(others, Matching(search1), Matching(search2));
  }

  /** A name matches a search that equals it up to padding and letter case. */
  lemma OwnNameMatches(user: UserRecord, searchText: string)
    requires user.name.Some?
    requires Lower(Trim(searchText)) == Lower(Trim(user.name.value))
    ensures MatchesSearch(user, searchText)
  {
    var name, needle := user.name.value, Trim(searchText);
    ContainsOwnTrim(name);
    if needle != "" {
      assert |Lower(needle)| == |needle|;
      assert |Trim(name)| > 0;
    }
  }

  /** Searching for a user's own name finds that user, unless it is the caller. */
  lemma FoundByOwnName(docs: seq<UserDoc>, caller: Option<string>, i: nat)
    requires i < |docs| && docs[i].data.uid != caller && docs[i].data.name.Some?
    ensures ToRecord(docs[i]) in FilterUsers(docs, caller, docs[i].data.name.value)
  {
    OwnNameMatches(ToRecord(docs[i]), docs[i].data.name.value);
    assert ToRecords(docs)[i] == ToRecord(docs[i]);
  }

  /** "No users found" is shown exactly when no fetched document passes both filters. */
  lemma PlaceholderExactlyWhenNoMatch(docs: seq<UserDoc>, caller: Option<string>, searchText: string)
    ensures FilterUsers(docs, caller, searchText) == [] <==>
              forall i :: 0 <= i < |docs| ==>
                docs[i].data.uid == caller || !MatchesSearch(ToRecord(docs[i]), searchText)
  {
  }

  lemma TrimExample()
    ensures Trim("al") == "al"
  {
    assert "al"[0] == 'a' && "al"[|"al"| - 1] == 'l';
    assert !IsWhitespace('a') && !IsWhitespace('l');
  }

  lemma LowerExample()
    ensures Lower("al") == "al"
    ensures Lower("Alice")[..2] == "al"
    ensures Lower("Bob") == "bob"
  {
    assert "al"[1..] == "l";
    assert "Bob"[1..] == "ob" && "ob"[1..] == "b";
  }

  lemma ContainsExample()
    ensures Contains("alice", "al") && !Contains("bob", "al")
  {
    assert "al" <= "alice";
    assert "bob"[1..] == "ob" && "ob"[1..] == "b" && "b"[1..] == "";
    assert !("al" <= "bob") && !("al" <= "ob") && !("al" <= "b") && !("al" <= "") by {
      assert "bob"[0] != 'a' && "ob"[0] != 'a' && "b"[0] != 'a';
    }
  }

  /** "al" matches the name "Alice" and not the name "Bob". */
  lemma SearchExample(alice: UserRecord, bob: UserRecord)
    requires alice.name == Some("Alice") && bob.name == Some("Bob")
    ensures MatchesSearch(alice, "al") && !MatchesSearch(bob, "al")
  {
    TrimExample();
    LowerExample();
    ContainsExample();
    assert Lower("Alice") == "alice";
  }

  datatype FetchResult = Fetched(docs: seq<UserDoc>) | FetchFailed

  /** The state of the home screen. */
  class HomeScreen {
    var users: seq<UserRecord>
    var search: string
    var currentUser: Option<AuthUser>

    constructor ()
      ensures users == [] && search == "" && currentUser == None
    {
      users := [];
      search := "";
      currentUser := None;
    }

    /**
     * `fetchUsers(searchText)`: the fetched profiles, filtered against the signed-in
     * user at the time of the call; a failed fetch leaves `users` as it was.
     */
    method FetchUsers(searchText: string, signedIn: Option<AuthUser>, fetched: FetchResult)
      modifies this`users
      ensures users == if fetched.Fetched? then FilterUsers(fetched.docs, UidOf(signedIn), searchText) else old(users)
    {
      match fetched
      case FetchFailed =>
      case Fetched(docs) =>
        users := FilterUsers(docs, UidOf(signedIn), searchText);
    }

    /** The mount effect: remember the signed-in user and list everyone else. */
    method Mount(signedIn: Option<AuthUser>, fetched: FetchResult)
      modifies this`currentUser, this`users
      ensures currentUser == signedIn
      ensures users == if fetched.Fetched? then FilterUsers(fetched.docs, UidOf(signedIn), "") else old(users)
    {
      currentUser := signedIn;
      FetchUsers("", signedIn, fetched);
    }

    /** A keystroke in the search box: store the text and refetch with it. */
    method OnChangeText(text: string, signedIn: Option<AuthUser>, fetched: FetchResult)
      modifies this`search, this`users
      ensures search == text
      ensures users == if fetched.Fetched? then FilterUsers(fetched.docs, UidOf(signedIn), text) else old(users)
    {
      search := text;
      FetchUsers(text, signedIn, fetched);
    }

    /** `users.length === 0`: the screen shows "No users found" instead of the list. */
    function ShowsPlaceholder(): (shown: bool)
      reads this
      ensures shown <==> users == []
    {
      |users| == 0
    }
  }
}
