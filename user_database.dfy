/**
 * The user store of database.py: `DatabaseManager` keeps one document per
 * signed-in user, merges repeated sign-ins into it, keeps a login history
 * and counts users by provider. Cloudant is abstracted as a map from
 * document id to document; the clock is the `now` parameter.
 */
module UserDatabase {
  import opened Wrappers

  /** One element of `login_history`. */
  datatype LoginEntry = LoginEntry(timestamp: string, provider: string, ipAddress: string, userAgent: string)

  /**
   * A user document. A key the document may lack is an Option; a document
   * written by `save_user` has all of them.
   */
  datatype UserDoc = UserDoc(
    id: string,
    email: Option<string>,
    name: Option<string>,
    username: Option<string>,
    provider: Option<string>,
    emailVerified: Option<bool>,
    picture: Option<string>,
    createdAt: Option<string>,
    lastLogin: Option<string>,
    loginCount: Option<int>,
    loginHistory: Option<seq<LoginEntry>>)

  /** The sign-in record handed to `save_user`: each key may be absent. */
  datatype UserData = UserData(
    sub: Option<string>,
    email: Option<string>,
    name: Option<string>,
    preferredUsername: Option<string>,
    provider: Option<string>,
    emailVerified: Option<bool>,
    picture: Option<string>,
    ipAddress: Option<string>,
    userAgent: Option<string>)

  /** The record handed to `update_user_login`. */
  datatype LoginData = LoginData(provider: Option<string>, ipAddress: Option<string>, userAgent: Option<string>)

  /** The user statistics; the count of recent logins is not part of this model. */
  datatype Stats = Stats(totalUsers: nat, providers: map<string, nat>, verifiedEmails: nat)

  /** The most login records a document keeps after `update_user_login`. */
  const HistoryLimit: nat := 50

  /** The default `limit` of `get_all_users`, the one `get_user_stats` uses. */
  const DefaultLimit: nat := 100

  // ---------------------------------------------------------------------
  // The record rules, as functions of the documents.
  // ---------------------------------------------------------------------

  /** The document id: `sub`, else `email`, else "". */
  function DocId(u: UserData): string {
    match u.sub
    case Some(sub) => sub
    case None => u.email.GetOr("")
  }

  /** The history entry a sign-in adds; a missing provider is "unknown". */
  function EntryOf(data: LoginData, now: string): LoginEntry {
    LoginEntry(now, data.provider.GetOr("unknown"), data.ipAddress.GetOr(""), data.userAgent.GetOr(""))
  }

  function LoginDataOf(u: UserData): LoginData {
    LoginData(u.provider, u.ipAddress, u.userAgent)
  }

  /** The document `save_user` builds before looking for an existing one. */
  function NewDoc(u: UserData, now: string): UserDoc {
    UserDoc(DocId(u), u.email, u.name, u.preferredUsername, Some(u.provider.GetOr("unknown")),
            Some(u.emailVerified.GetOr(false)), u.picture, Some(now), Some(now), Some(1),
            Some([EntryOf(LoginDataOf(u), now)]))
  }

  /**
   * The new document merged with the stored one: the stored creation time,
   * one more login, the stored history followed by the new entry. A stored
   * document without a creation time raises a KeyError, which `save_user`
   * turns into None.
   */
  function Merge(existing: UserDoc, incoming: UserDoc): Option<UserDoc> {
    match existing.createdAt
    case None => None
    case Some(created) =>
      Some(incoming.(createdAt := Some(created),
                  loginCount := Some(existing.loginCount.GetOr(0) + 1),
                  loginHistory := Some(existing.loginHistory.GetOr([]) + incoming.loginHistory.GetOr([]))))
  }

  /** What `save_user` writes for `u` into the documents `docs`, None when it writes nothing. */
  function Saved(docs: map<string, UserDoc>, u: UserData, now: string): Option<UserDoc> {
    var incoming := NewDoc(u, now);
    if incoming.id in docs then Merge(docs[incoming.id], incoming) else Some(incoming)
  }

  /** The last `HistoryLimit` entries of a history. */
  function Trim(history: seq<LoginEntry>): (r: seq<LoginEntry>)
    ensures |r| == if |history| <= HistoryLimit then |history| else HistoryLimit
    ensures r == history[|history| - |r|..]
  {
    if |history| > HistoryLimit then history[|history| - HistoryLimit..] else history
  }

  /** The document after `update_user_login`. */
  function RecordLogin(user: UserDoc, data: LoginData, now: string): UserDoc {
    user.(lastLogin := Some(now),
          loginCount := Some(user.loginCount.GetOr(0) + 1),
          loginHistory := Some(Trim(user.loginHistory.GetOr([]) + [EntryOf(data, now)])))
  }

  function ProviderOf(u: UserDoc): string {
    u.provider.GetOr("unknown")
  }

  /** The per-provider counts over a list of users, counting in list order. */
  function ProviderCounts(users: seq<UserDoc>): map<string, nat>
    decreases |users|
  {
    if users == [] then map[]
    else
      var counts := ProviderCounts(users[..|users| - 1]);
      var p := ProviderOf(users[|users| - 1]);
      counts[p := (if p in counts then counts[p] else 0) + 1]
  }

  /** The number of users whose `email_verified` is true. */
  function VerifiedCount(users: seq<UserDoc>): nat
    decreases |users|
  {
    if users == [] then 0
    else VerifiedCount(users[..|users| - 1]) + (if users[|users| - 1].emailVerified.GetOr(false) then 1 else 0)
  }

  /** The statistics of a list of users. */
  function StatsOf(users: seq<UserDoc>): Stats {
    Stats(|users|, ProviderCounts(users), VerifiedCount(users))
  }

  /** The providers of a list of users, in order. */
  function Providers(users: seq<UserDoc>): seq<string>
    decreases |users|
  {
    if users == [] then [] else Providers(users[..|users| - 1]) + [ProviderOf(users[|users| - 1])]
  }

  function Min(a: nat, b: nat): nat { if a <= b then a else b }

  /**
   * The rows a query for all users may return: `limit` of the documents,
   * or all of them if there are fewer, each once.
   */
  predicate Listing(users: seq<UserDoc>, docs: map<string, UserDoc>, limit: nat) {
    |users| == Min(limit, |docs|) &&
    (forall i :: 0 <= i < |users| ==> users[i].id in docs && docs[users[i].id] == users[i]) &&
    (forall i, j :: 0 <= i < j < |users| ==> users[i].id != users[j].id)
  }

  /**
   * `save_user` writes nothing exactly when the user's document is stored
   * without a creation time.
   */
  lemma SaveFailsIffNoCreationTime(docs: map<string, UserDoc>, u: UserData, now: string)
    ensures Saved(docs, u, now).None? <==> DocId(u) in docs && docs[DocId(u)].createdAt.None?
  {
  }

  /** A first sign-in creates a document with one login and a one-entry history. */
  lemma FirstSignIn(docs: map<string, UserDoc>, u: UserData, now: string)
    requires DocId(u) !in docs
    ensures Saved(docs, u, now).Some?
    ensures var d := Saved(docs, u, now).value;
      d.id == DocId(u) && d.createdAt == Some(now) && d.lastLogin == Some(now) &&
      d.loginCount == Some(1) && d.loginHistory == Some([EntryOf(LoginDataOf(u), now)])
  {
  }

  /**
   * A repeated sign-in keeps the creation time, counts one more login and
   * appends one entry to the stored history, while the profile fields come
   * from the new sign-in.
   */
  lemma RepeatedSignIn(docs: map<string, UserDoc>, u: UserData, now: string)
    requires DocId(u) in docs && docs[DocId(u)].createdAt.Some?
    ensures Saved(docs, u, now).Some?
    ensures var stored := docs[DocId(u)]; var d := Saved(docs, u, now).value;
      d.id == DocId(u) && d.createdAt == stored.createdAt && d.lastLogin == Some(now) &&
      d.loginCount == Some(stored.loginCount.GetOr(0) + 1) &&
      d.loginHistory == Some(stored.loginHistory.GetOr([]) + [EntryOf(LoginDataOf(u), now)]) &&
      d.email == u.email && d.name == u.name && d.username == u.preferredUsername
  {
  }

  /** `save_user` does not trim: a stored history of 50 entries grows to 51. */
  lemma SaveDoesNotTrim(docs: map<string, UserDoc>, u: UserData, now: string, history: seq<LoginEntry>)
    requires DocId(u) in docs && docs[DocId(u)].createdAt.Some?
    requires docs[DocId(u)].loginHistory == Some(history) && |history| == HistoryLimit
    ensures Saved(docs, u, now).Some?
    ensures |Saved(docs, u, now).value.loginHistory.value| == HistoryLimit + 1
  {
  }

  /** Trimming twice is trimming once. */
  lemma TrimIdempotent(history: seq<LoginEntry>)
    ensures Trim(Trim(history)) == Trim(history)
  {
  }

  /**
   * After `update_user_login` the document counts one more login, its last
   * history entry is the new one, and its history is the stored history
   * plus that entry when that fits in 50 entries, else the last 50 of those.
   */
  lemma RecordLoginHistory(user: UserDoc, data: LoginData, now: string)
    ensures var d := RecordLogin(user, data, now); var h := user.loginHistory.GetOr([]);
      d.id == user.id && d.createdAt == user.createdAt && d.lastLogin == Some(now) &&
      d.loginCount == Some(user.loginCount.GetOr(0) + 1) &&
      d.loginHistory.Some? && 0 < |d.loginHistory.value| <= HistoryLimit &&
      d.loginHistory.value[|d.loginHistory.value| - 1] == EntryOf(data, now) &&
      (|h| < HistoryLimit ==> d.loginHistory.value == h + [EntryOf(data, now)]) &&
      (HistoryLimit <= |h| ==> d.loginHistory.value == h[|h| + 1 - HistoryLimit..] + [EntryOf(data, now)])
  {
    var h := user.loginHistory.GetOr([]);
    var e := EntryOf(data, now);
    var t := Trim(h + [e]);
    if HistoryLimit <= |h| {
      assert t == (h + [e])[|h| + 1 - HistoryLimit..];
      assert (h + [e])[|h| + 1 - HistoryLimit..] == h[|h| + 1 - HistoryLimit..] + [e];
    }
  }

  /** No user is counted twice as verified. */
  lemma {:induction false} VerifiedAtMostTotal(users: seq<UserDoc>)
    ensures VerifiedCount(users) <= |users|
    decreases |users|
  {
    if users != [] {
      VerifiedAtMostTotal(users[..|users| - 1]);
    }
  }

  /**
   * The provider counts are the multiplicities of the users' providers
   * (a missing provider counted as "unknown"), so they add up to the
   * number of users.
   */
  lemma {:induction false} ProviderCountsAreMultiplicities(users: seq<UserDoc>)
    ensures |Providers(users)| == |users|
    ensures forall p :: p in ProviderCounts(users) <==> p in multiset(Providers(users))
    ensures forall p :: p in ProviderCounts(users) ==> ProviderCounts(users)[p] == multiset(Providers(users))[p]
    decreases |users|
  {
    if users != [] {
      var init := users[..|users| - 1];
      ProviderCountsAreMultiplicities(init);
      assert multiset(Providers(users)) == multiset(Providers(init)) + multiset{ProviderOf(users[|users| - 1])};
    }
  }

  /** The ids of a listing are distinct, so there are as many ids as users. */
  lemma {:induction false} ListingIds(users: seq<UserDoc>)
    requires forall i, j :: 0 <= i < j < |users| ==> users[i].id != users[j].id
    ensures |set i | 0 <= i < |users| :: users[i].id| == |users|
    decreases |users|
  {
    if users != [] {
      var init := users[..|users| - 1];
      ListingIds(init);
      var ids := set i | 0 <= i < |init| :: init[i].id;
      assert (set i | 0 <= i < |users| :: users[i].id) == ids + {users[|users| - 1].id};
      assert users[|users| - 1].id !in ids;
    }
  }

  /**
   * Below the limit a listing holds every stored document, so the
   * statistics then cover all users; above it they cover `limit` of them.
   */
  lemma ListingCoversAll(users: seq<UserDoc>, docs: map<string, UserDoc>, limit: nat)
    requires Listing(users, docs, limit) && |docs| <= limit
    ensures (set i | 0 <= i < |users| :: users[i].id) == docs.Keys
  {
    ListingIds(users);
    var ids := set i | 0 <= i < |users| :: users[i].id;
    assert ids <= docs.Keys;
    assert |docs.Keys - ids| == 0;
  }

  // ---------------------------------------------------------------------
  // The manager.
  // ---------------------------------------------------------------------

  class DatabaseManager {
    /** Whether `connect` found credentials and reached the database; the guards' `not self.db` is its negation. */
    var connected: bool
    /** The database: documents by id. */
    var docs: map<string, UserDoc>

    /** Every document is stored under its own id. */
    ghost predicate Valid()
      reads this
    {
      forall id :: id in docs ==> docs[id].id == id
    }

    /** A manager over the documents `stored`; `connected` is the outcome of `connect`. */
    constructor (connected: bool, stored: map<string, UserDoc>)
      requires forall id :: id in stored ==> stored[id].id == id
      ensures Valid()
      ensures this.connected == connected && docs == stored
    {
      this.connected := connected;
      docs := stored;
    }

    /** `get_user`: the document stored under `userId`, None when there is none or no database. */
    method GetUser(userId: string) returns (user: Option<UserDoc>)
      ensures user.Some? <==> connected && userId in docs
      ensures user.Some? ==> user.value == docs[userId]
    {
      if !connected {
        return None;
      }
      if userId in docs {
        user := Some(docs[userId]);
      } else {
        user := None;
      }
    }

    /** `save_user`: create the user's document, or merge the sign-in into the stored one. */
    method SaveUser(u: UserData, now: string) returns (saved: Option<UserDoc>)
      requires Valid()
      modifies this
      ensures Valid()
      ensures connected == old(connected)
      ensures saved == if old(connected) then Saved(old(docs), u, now) else None
      ensures docs == if saved.Some? then old(docs)[saved.value.id := saved.value] else old(docs)
    {
      if !connected {
        return None;
      }
      var userDoc := NewDoc(u, now);
      var existing := GetUser(userDoc.id);
      if existing.Some? {
        if existing.value.createdAt.None? {
          return None;
        }
        userDoc := userDoc.(createdAt := existing.value.createdAt);
        userDoc := userDoc.(loginCount := Some(existing.value.loginCount.GetOr(0) + 1));
        userDoc := userDoc.(loginHistory := Some(existing.value.loginHistory.GetOr([]) + userDoc.loginHistory.GetOr([])));
      }
      docs := docs[userDoc.id := userDoc];
      saved := Some(userDoc);
    }

    /** `update_user_login`: record a sign-in on a stored document. */
    method UpdateUserLogin(userId: string, data: LoginData, now: string) returns (updated: Option<UserDoc>)
      requires Valid()
      modifies this
      ensures Valid()
      ensures connected == old(connected)
      ensures updated.Some? <==> old(connected) && userId in old(docs)
      ensures updated.Some? ==> updated.value == RecordLogin(old(docs)[userId], data, now)
      ensures docs == if updated.Some? then old(docs)[userId := updated.value] else old(docs)
    {
      if !connected {
        return None;
      }
      var found := GetUser(userId);
      if found.None? {
        return None;
      }
      var user := found.value;
      user := user.(lastLogin := Some(now));
      user := user.(loginCount := Some(user.loginCount.GetOr(0) + 1));
      var history := user.loginHistory.GetOr([]);
      history := history + [EntryOf(data, now)];
      if |history| > HistoryLimit {
        history := history[|history| - HistoryLimit..];
      }
      user := user.(loginHistory := Some(history));
      docs := docs[userId := user];
      updated := Some(user);
    }

    /** `get_user_by_email`: some stored document with that email, None when there is none. */
    method GetUserByEmail(email: string) returns (user: Option<UserDoc>)
      requires Valid()
      ensures user.Some? <==> connected && exists id :: id in docs && docs[id].email == Some(email)
      ensures user.Some? ==> user.value.id in docs && docs[user.value.id] == user.value && user.value.email == Some(email)
    {
      if !connected {
        return None;
      }
      if exists id :: id in docs && docs[id].email == Some(email) {
        var id :| id in docs && docs[id].email == Some(email);
        user := GetUser(id);
      } else {
        user := None;
      }
    }

    /** `get_all_users`: up to `limit` stored documents, each once; [] without a database. */
    method GetAllUsers(limit: nat) returns (users: seq<UserDoc>)
      requires Valid()
      ensures !connected ==> users == []
      ensures connected ==> Listing(users, docs, limit)
    {
      if !connected {
        return [];
      }
      users := [];
      var remaining := docs.Keys;
      while |users| < limit && remaining != {}
        invariant remaining <= docs.Keys
        invariant |users| + |remaining| == |docs|
        invariant |users| <= limit
        invariant forall i :: 0 <= i < |users| ==> users[i].id in docs && docs[users[i].id] == users[i]
        invariant forall i :: 0 <= i < |users| ==> users[i].id !in remaining
        invariant forall i, j :: 0 <= i < j < |users| ==> users[i].id != users[j].id
        decreases |remaining|
      {
        var id :| id in remaining;
        users := users + [docs[id]];
        remaining := remaining - {id};
      }
    }

    /** `delete_user`: remove a stored document; true exactly when there was one to remove. */
    method DeleteUser(userId: string) returns (deleted: bool)
      requires Valid()
      modifies this
      ensures Valid()
      ensures connected == old(connected)
      ensures deleted <==> old(connected) && userId in old(docs)
      ensures docs == if deleted then old(docs) - {userId} else old(docs)
    {
      if !connected {
        return false;
      }
      var user := GetUser(userId);
      if user.Some? {
        docs := docs - {userId};
        return true;
      }
      return false;
    }

    /** `get_user_stats`: the statistics of the first `DefaultLimit` users; None without a database. */
    method GetUserStats() returns (stats: Option<Stats>)
      requires Valid()
      ensures stats.Some? <==> connected
      ensures stats.Some? ==> exists users :: Listing(users, docs, DefaultLimit) && stats.value == StatsOf(users)
    {
      if !connected {
        return None;
      }
      var users := GetAllUsers(DefaultLimit);
      var s := TallyUsers(users);
      stats := Some(s);
    }
  }

  /** The counting loop of `get_user_stats`. */
  method TallyUsers(users: seq<UserDoc>) returns (stats: Stats)
    ensures stats == StatsOf(users)
  {
    stats := Stats(|users|, map[], 0);
    for i := 0 to |users|
      invariant stats == Stats(|users|, ProviderCounts(users[..i]), VerifiedCount(users[..i]))
    {
      assert users[..i + 1][..i] == users[..i];
      var provider := ProviderOf(users[i]);
      var count := if provider in stats.providers then stats.providers[provider] else 0;
      stats := stats.(providers := stats.providers[provider := count + 1]);
      if users[i].emailVerified.GetOr(false) {
        stats := stats.(verifiedEmails := stats.verifiedEmails + 1);
      }
    }
    assert users[..|users|] == users;
  }
}
