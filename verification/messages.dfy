/** The history of actions that users take on a message. */
module Messages {
  type User = string

  datatype MessageAction = Read | Unread | Respond | Delete

  datatype HistoryEntry = HistoryEntry(user: User, action: MessageAction)

  datatype Message = Message(users: seq<User>, history: seq<HistoryEntry>, requiresResponse: bool)

  /** The list without the first occurrence of a user. */
  function Without(users: seq<User>, u: User): (r: seq<User>)
    ensures forall x :: x in r ==> x in users
  {
    if users == [] then [] else if users[0] == u then users[1..] else [users[0]] + Without(users[1..], u)
  }

  /** The scan for the latest read or unread entry of a user, from the end. */
  predicate HasRead(history: seq<HistoryEntry>, u: User)
  {
    if history == [] then false
    else
      var last := history[|history|-1];
      if last.user == u && last.action.Unread? then false
      else if last.user == u && last.action.Read? then true
      else HasRead(history[..|history|-1], u)
  }

  predicate HasResponse(history: seq<HistoryEntry>)
  {
    exists i :: 0 <= i < |history| && history[i].action.Respond?
  }

  /** What recording an action does; a user who is no recipient, an unread of what was not read, and a response
      that is not wanted leave no trace. */
  function Record(m: Message, u: User, a: MessageAction): Message
  {
    if u !in m.users then m
    else if a.Unread? && !HasRead(m.history, u) then m
    else if a.Respond? && (!m.requiresResponse || HasResponse(m.history)) then m
    else m.(users := if a.Delete? then Without(m.users, u) else m.users, history := m.history + [HistoryEntry(u, a)])
  }

  class MessageRow {
    var users: seq<User>
    var history: seq<HistoryEntry>
    const requiresResponse: bool

    function Abstract(): Message
      reads this
    {
      Message(users, history, requiresResponse)
    }

    constructor (users: seq<User>, requiresResponse: bool)
      ensures Abstract() == Message(users, [], requiresResponse)
    {
      this.users := users;
      this.requiresResponse := requiresResponse;
      history := [];
    }

    method UserHasRead(u: User) returns (r: bool)
      ensures r == HasRead(history, u)
    {
      var i := |history|;
      assert history[..|history|] == history;
      while i > 0
        invariant 0 <= i <= |history| && HasRead(history, u) == HasRead(history[..i], u)
      {
        assert history[..i][..i-1] == history[..i-1];
        if history[i-1].user == u && history[i-1].action == Unread {
          return false;
        }
        if history[i-1].user == u && history[i-1].action == Read {
          return true;
        }
        i := i - 1;
      }
      r := false;
    }

    method IsResponded() returns (r: bool)
      ensures r <==> requiresResponse && HasResponse(history)
    {
      if !requiresResponse {
        return false;
      }
      var i := |history|;
      while i > 0
        invariant 0 <= i <= |history| && forall k | i <= k < |history| :: !history[k].action.Respond?
      {
        if history[i-1].action == Respond {
          return true;
        }
        i := i - 1;
      }
      r := false;
    }

    method RecordUserAction(u: User, a: MessageAction)
      modifies this
      ensures Abstract() == Record(old(Abstract()), u, a)
    {
      if u in users {
        if a == Unread {
          var read := UserHasRead(u);
          if !read {
            return;
          }
        } else if a == Respond {
          var responded := IsResponded();
          if !requiresResponse || responded {
            return;
          }
        } else if a == Delete {
          users := Without(users, u);
        }
        history := history + [HistoryEntry(u, a)];
      }
    }
  }

  // ---------------------------------------------------------------- any run of actions

  function RecordAll(m: Message, actions: seq<HistoryEntry>): Message
  {
    if actions == [] then m
    else
      var last := actions[|actions|-1];
      Record(RecordAll(m, actions[..|actions|-1]), last.user, last.action)
  }

  ghost predicate Distinct(users: seq<User>)
  {
    forall i, j | 0 <= i < j < |users| :: users[i] != users[j]
  }

  ghost predicate Deleted(history: seq<HistoryEntry>, u: User)
  {
    HistoryEntry(u, Delete) in history
  }

  /** At most one response, and none unless one is required. */
  ghost predicate OneResponse(m: Message)
  {
    && (forall i, j | 0 <= i < j < |m.history| :: !(m.history[i].action.Respond? && m.history[j].action.Respond?))
    && (!m.requiresResponse ==> !HasResponse(m.history))
  }

  /** Nothing by a user comes after their delete. */
  ghost predicate SilentAfterDelete(m: Message)
  {
    forall i, j | 0 <= i < j < |m.history| :: m.history[i].action.Delete? ==> m.history[j].user != m.history[i].user
  }

  /** Every unread entry has a read entry of the same user before it, with no unread of theirs in between. */
  ghost predicate UnreadFollowsRead(history: seq<HistoryEntry>)
  {
    forall k | 0 <= k < |history| && history[k].action.Unread? :: ReadBefore(history, k, history[k].user)
  }

  ghost predicate ReadBefore(history: seq<HistoryEntry>, k: nat, u: User)
    requires k <= |history|
  {
    exists j :: 0 <= j < k && history[j] == HistoryEntry(u, Read)
      && forall i | j < i < k :: history[i] != HistoryEntry(u, Unread)
  }

  lemma {:induction false} HasReadMeans(history: seq<HistoryEntry>, u: User)
    ensures HasRead(history, u) <==> ReadBefore(history, |history|, u)
  {
    if history != [] {
      var n := |history| - 1;
      var front := history[..n];
      HasReadMeans(front, u);
      if ReadBefore(front, n, u) && history[n] != HistoryEntry(u, Unread) {
        var j :| 0 <= j < n && front[j] == HistoryEntry(u, Read) && forall i | j < i < n ::
            front[i] != HistoryEntry(u, Unread);
        assert history[j] == HistoryEntry(u, Read) && forall i | j < i < n + 1 :: history[i] != HistoryEntry(u, Unread);
      }
      if ReadBefore(history, n + 1, u) && history[n] != HistoryEntry(u, Read) {
        var j :| 0 <= j < n + 1 && history[j] == HistoryEntry(u, Read) && forall i | j < i < n + 1 ::
            history[i] != HistoryEntry(u, Unread);
        assert front[j] == HistoryEntry(u, Read) && forall i | j < i < n :: front[i] != HistoryEntry(u, Unread);
      }
    }
  }

  lemma ReadBeforePrefix(history: seq<HistoryEntry>, e: HistoryEntry, k: nat, u: User)
    requires k <= |history|
    ensures ReadBefore(history + [e], k, u) <==> ReadBefore(history, k, u)
  {
    assert forall i | 0 <= i < k :: (history + [e])[i] == history[i];
    if ReadBefore(history, k, u) {
      var j :| 0 <= j < k && history[j] == HistoryEntry(u, Read) && forall i | j < i < k ::
          history[i] != HistoryEntry(u, Unread);
      assert (history + [e])[j] == HistoryEntry(u, Read);
    }
    if ReadBefore(history + [e], k, u) {
      var j :| 0 <= j < k && (history + [e])[j] == HistoryEntry(u, Read)
               && forall i | j < i < k :: (history + [e])[i] != HistoryEntry(u, Unread);
      assert history[j] == HistoryEntry(u, Read);
    }
  }

  lemma {:induction false} WithoutIsGone(users: seq<User>, u: User)
    requires Distinct(users)
    ensures Distinct(Without(users, u)) && u !in Without(users, u)
  {
    if users != [] {
      assert forall i | 0 <= i < |users[1..]| :: users[1..][i] == users[i+1];
      if users[0] != u {
        WithoutIsGone(users[1..], u);
        var rest := Without(users[1..], u);
        forall j | 0 <= j < |rest| ensures rest[j] != users[0] {
          assert rest[j] in rest;
        }
      }
    }
  }

  ghost predicate Kept(m: Message)
  {
    && Distinct(m.users) && OneResponse(m) && SilentAfterDelete(m) && UnreadFollowsRead(m.history)
    && forall u :: Deleted(m.history, u) ==> u !in m.users
  }

  lemma AppendKeepsUnread(history: seq<HistoryEntry>, e: HistoryEntry)
    requires UnreadFollowsRead(history) && (e.action.Unread? ==> HasRead(history, e.user))
    ensures UnreadFollowsRead(history + [e])
  {
    HasReadMeans(history, e.user);
    hide ReadBefore;
    var longer := history + [e];
    forall k | 0 <= k < |longer| && longer[k].action.Unread? ensures ReadBefore(longer, k, longer[k].user) {
      ReadBeforePrefix(history, e, k, longer[k].user);
    }
  }

  lemma AppendKeepsSilence(m: Message, u: User, a: MessageAction)
    requires SilentAfterDelete(m) && (forall x :: Deleted(m.history, x) ==> x !in m.users) && u in m.users
    ensures SilentAfterDelete(m.(history := m.history + [HistoryEntry(u, a)]))
  {
    forall i | 0 <= i < |m.history| && m.history[i].action.Delete? ensures m.history[i].user != u {
      assert Deleted(m.history, m.history[i].user);
    }
  }

  lemma RecordKeeps(m: Message, u: User, a: MessageAction)
    requires Kept(m)
    ensures Kept(Record(m, u, a))
  {
    var r := Record(m, u, a);
    if r != m {
      var e := HistoryEntry(u, a);
      assert r.history == m.history + [e];
      AppendKeepsUnread(m.history, e);
      AppendKeepsSilence(m, u, a);
      WithoutIsGone(m.users, u);
      hide UnreadFollowsRead, SilentAfterDelete, HasRead, Without;
      forall x | Deleted(r.history, x) ensures x !in r.users {
        assert (x == u && a.Delete?) || Deleted(m.history, x);
      }
      assert forall i | 0 <= i < |m.history| :: m.history[i].action.Respond? ==> HasResponse(m.history);
      SilenceIsOfHistory(m.(history := r.history), r);
    }
  }

  lemma SilenceIsOfHistory(m: Message, r: Message)
    requires SilentAfterDelete(m) && r.history == m.history
    ensures SilentAfterDelete(r)
  {
  }

  /** Whatever actions are taken by whom, on a message with distinct recipients: at most one response and none
      that is not required, nothing by a user after their delete, and no unread before a read or twice in a row. */
  lemma {:induction false} HistoriesAreOrderly(users: seq<User>, requiresResponse: bool, actions: seq<HistoryEntry>)
    requires Distinct(users)
    ensures var m := RecordAll(Message(users, [], requiresResponse), actions);
            OneResponse(m) && SilentAfterDelete(m) && UnreadFollowsRead(m.history) && Kept(m)
  {
    if actions != [] {
      var n := |actions| - 1;
      HistoriesAreOrderly(users, requiresResponse, actions[..n]);
      RecordKeeps(RecordAll(Message(users, [], requiresResponse), actions[..n]), actions[n].user, actions[n].action);
    }
  }

  lemma {:induction false} WithoutKeepsSecond(users: seq<User>, i: nat, j: nat)
    requires i < j < |users| && users[i] == users[j]
    ensures users[j] in Without(users, users[i])
  {
    if users[0] == users[i] {
      assert users[1..][j - 1] == users[j];
    } else {
      assert users[1..][i - 1] == users[i] && users[1..][j - 1] == users[j];
      WithoutKeepsSecond(users[1..], i - 1, j - 1);
    }
  }

  /** A recipient listed twice can act after their delete. */
  lemma TwiceListedSpeaksAgain(users: seq<User>, requiresResponse: bool, i: nat, j: nat)
    requires i < j < |users| && users[i] == users[j]
    ensures var u := users[i];
            var m := RecordAll(Message(users, [], requiresResponse), [HistoryEntry(u, Delete), HistoryEntry(u, Read)]);
            m.history == [HistoryEntry(u, Delete), HistoryEntry(u, Read)] && !SilentAfterDelete(m)
  {
    var u := users[i];
    var one, two := HistoryEntry(u, Delete), HistoryEntry(u, Read);
    var m := Message(users, [], requiresResponse);
    assert [one, two][..1] == [one] && [one][..0] == [];
    assert RecordAll(m, []) == m;
    assert RecordAll(m, [one]) == Record(m, u, Delete);
    WithoutKeepsSecond(users, i, j);
    assert RecordAll(m, [one, two]) == Record(Record(m, u, Delete), u, Read);
    assert Record(m, u, Delete).history == [one];
  }

  /** A message's users stay silent after their delete in every run of actions exactly when its recipients are
      distinct. */
  lemma SilentExactlyWhenDistinct(users: seq<User>, requiresResponse: bool)
    ensures (forall actions :: SilentAfterDelete(RecordAll(Message(users, [], requiresResponse), actions))) <==>
            Distinct(users)
  {
    if Distinct(users) {
      forall actions ensures SilentAfterDelete(RecordAll(Message(users, [], requiresResponse), actions)) {
        HistoriesAreOrderly(users, requiresResponse, actions);
      }
    } else {
      var i, j :| 0 <= i < j < |users| && users[i] == users[j];
      TwiceListedSpeaksAgain(users, requiresResponse, i, j);
    }
  }

  // ---------------------------------------------------------------- what is recorded

  lemma {:induction false} WithoutTakesOne(users: seq<User>, u: User)
    ensures multiset(Without(users, u)) == multiset(users) - multiset{u}
  {
    if users != [] {
      assert users == [users[0]] + users[1..];
      if users[0] != u {
        WithoutTakesOne(users[1..], u);
      }
    }
  }

  lemma RecordTakesRecipients(m: Message, u: User, a: MessageAction, x: User)
    ensures var r := Record(m, u, a);
            multiset(r.users)[x] + multiset(r.history)[HistoryEntry(x, Delete)] ==
            multiset(m.users)[x] + multiset(m.history)[HistoryEntry(x, Delete)]
  {
    hide HasRead;
    WithoutTakesOne(m.users, u);
  }

  /** A user is left as a recipient as often as they were listed, less their deletes. */
  lemma {:induction false} RecipientsLeft(users: seq<User>, requiresResponse: bool, actions: seq<HistoryEntry>, u: User)
    ensures var m := RecordAll(Message(users, [], requiresResponse), actions);
            multiset(m.users)[u] + multiset(m.history)[HistoryEntry(u, Delete)] == multiset(users)[u]
            && m.requiresResponse == requiresResponse
  {
    if actions != [] {
      var n := |actions| - 1;
      RecipientsLeft(users, requiresResponse, actions[..n], u);
      RecordTakesRecipients(RecordAll(Message(users, [], requiresResponse), actions[..n]), actions[n].user,
                            actions[n].action, u);
      hide HasRead, Without;
    }
  }

  /** Whether an action is to be recorded after a history: its user has been listed more often than they have deleted
      the message, an unread comes after a read with no unread between, and a response is required and the first. */
  ghost predicate Wanted(users: seq<User>, requiresResponse: bool, history: seq<HistoryEntry>, e: HistoryEntry)
  {
    && multiset(users)[e.user] > multiset(history)[HistoryEntry(e.user, Delete)]
    && match e.action
       case Read => true
       case Delete => true
       case Unread => ReadBefore(history, |history|, e.user)
       case Respond => requiresResponse && forall i | 0 <= i < |history| :: history[i].action != Respond
  }

  /** Over any run of actions, on any list of recipients: each action is appended to the history exactly when it is
      wanted, and otherwise changes nothing. */
  lemma RecordedExactly(users: seq<User>, requiresResponse: bool, actions: seq<HistoryEntry>, n: nat)
    requires n < |actions|
    ensures var before := RecordAll(Message(users, [], requiresResponse), actions[..n]);
            var after := RecordAll(Message(users, [], requiresResponse), actions[..n+1]);
            if Wanted(users, requiresResponse, before.history, actions[n]) then
              after.history == before.history + [actions[n]]
            else after == before
  {
    var e := actions[n];
    var before := RecordAll(Message(users, [], requiresResponse), actions[..n]);
    assert actions[..n+1][..n] == actions[..n];
    RecipientsLeft(users, requiresResponse, actions[..n], e.user);
    HasReadMeans(before.history, e.user);
    hide HasRead, Without, RecordAll;
    assert e.user in before.users <==> multiset(before.users)[e.user] > 0;
    assert HistoryEntry(e.user, e.action) == e;
  }

  // ---------------------------------------------------------------- the scan is a fold

  function ReadAfter(read: bool, e: HistoryEntry, u: User): bool
  {
    if e.user != u then read else if e.action.Read? then true else if e.action.Unread? then false else read
  }

  /** The read state, followed forward from the beginning. */
  function Follow(read: bool, history: seq<HistoryEntry>, u: User): bool
    decreases |history|
  {
    if history == [] then read else Follow(ReadAfter(read, history[0], u), history[1..], u)
  }

  lemma {:induction false} FollowSnoc(read: bool, history: seq<HistoryEntry>, e: HistoryEntry, u: User)
    ensures Follow(read, history + [e], u) == ReadAfter(Follow(read, history, u), e, u)
    decreases |history|
  {
    if history == [] {
      assert ([] + [e])[1..] == [];
    } else {
      assert (history + [e])[1..] == history[1..] + [e];
      FollowSnoc(ReadAfter(read, history[0], u), history[1..], e, u);
    }
  }

  /** Scanning back for the latest entry and following the state forward agree on every history. */
  lemma {:induction false} ScanIsFold(history: seq<HistoryEntry>, u: User)
    ensures HasRead(history, u) == Follow(false, history, u)
  {
    if history != [] {
      var n := |history| - 1;
      ScanIsFold(history[..n], u);
      FollowSnoc(false, history[..n], history[n], u);
      assert history[..n] + [history[n]] == history;
    }
  }
}
