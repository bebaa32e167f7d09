/** loadUsersFromEnv: the account tables read from CAMERA_1, CAMERA_2, … and
    VIEWER_1, VIEWER_2, … at start-up. The process environment is a map and the
    password hash is a parameter. */
module EnvUsers {
  import opened Wire
  import Decimal

  /** username -> password digest, one table per role. */
  datatype Users = Users(cameras: map<string, Digest>, viewers: map<string, Digest>)

  /** String.prototype.split(':'). */
  function Split(s: string): (parts: seq<string>)
    ensures |parts| >= 1
  {
    if s == [] then [""]
    else if s[0] == ':' then [""] + Split(s[1..])
    else
      var rest := Split(s[1..]);
      [[s[0]] + rest[0]] + rest[1..]
  }

  /** Array.prototype.join(':'), the inverse of Split. */
  function Join(parts: seq<string>): string
    requires |parts| >= 1
  {
    if |parts| == 1 then parts[0] else parts[0] + ":" + Join(parts[1..])
  }

  ghost predicate ColonFree(parts: seq<string>) {
    forall i :: 0 <= i < |parts| ==> ':' !in parts[i]
  }

  lemma {:induction false} JoinCons(c: char, parts: seq<string>)
    requires |parts| >= 1
    ensures Join([[c] + parts[0]] + parts[1..]) == [c] + Join(parts)
  {
    var head := [c] + parts[0];
    var q := [head] + parts[1..];
    if |parts| == 1 {
      assert q == [head];
    } else {
      var tail := Join(parts[1..]);
      calc {
        Join(q);
      == { assert q[0] == head && q[1..] == parts[1..]; }
        head + ":" + tail;
      == { assert head + ":" + tail == [c] + (parts[0] + ":" + tail); }
        [c] + (parts[0] + ":" + tail);
      ==
        [c] + Join(parts);
      }
    }
  }

  lemma {:induction false} JoinSplit(s: string)
    ensures Join(Split(s)) == s
  {
    if s != [] {
      JoinSplit(s[1..]);
      if s[0] == ':' {
        assert ([""] + Split(s[1..]))[1..] == Split(s[1..]);
      } else {
        JoinCons(s[0], Split(s[1..]));
      }
    }
  }

  lemma {:induction false} SplitColonFree(s: string)
    ensures ColonFree(Split(s))
  {
    if s != [] {
      SplitColonFree(s[1..]);
      var rest := Split(s[1..]);
      if s[0] != ':' {
        assert ':' !in rest[0];
        var parts := [[s[0]] + rest[0]] + rest[1..];
        forall i | 0 <= i < |parts| ensures ':' !in parts[i] {
          if i > 0 { assert parts[i] == rest[i]; }
        }
      }
    }
  }

  /** Splitting a colon-free word followed by t glues the word to t's first part. */
  lemma {:induction false} SplitWord(w: string, t: string)
    requires ':' !in w
    ensures Split(w + t) == [w + Split(t)[0]] + Split(t)[1..]
  {
    if w == [] {
      assert w + t == t;
      assert w + Split(t)[0] == Split(t)[0];
      assert Split(t) == [Split(t)[0]] + Split(t)[1..];
    } else {
      assert (w + t)[1..] == w[1..] + t;
      assert (w + t)[0] == w[0];
      SplitWord(w[1..], t);
      assert [w[0]] + (w[1..] + Split(t)[0]) == w + Split(t)[0];
    }
  }

  lemma {:induction false} SplitJoin(parts: seq<string>)
    requires |parts| >= 1 && ColonFree(parts)
    ensures Split(Join(parts)) == parts
  {
    if |parts| == 1 {
      SplitWord(parts[0], "");
      assert parts[0] + "" == parts[0];
    } else {
      var rest := Join(parts[1..]);
      assert ColonFree(parts[1..]) by {
        forall i | 0 <= i < |parts[1..]| ensures ':' !in parts[1..][i] { assert parts[1..][i] == parts[i + 1]; }
      }
      SplitJoin(parts[1..]);
      assert parts[0] + ":" + rest == parts[0] + (":" + rest);
      SplitWord(parts[0], ":" + rest);
      assert (":" + rest)[1..] == rest;
      assert Split(":" + rest) == [""] + parts[1..];
      assert parts[0] + "" == parts[0];
      assert parts == [parts[0]] + parts[1..];
    }
  }

  /** The account an entry yields: the first two colon-separated parts, when both are non-empty. */
  function Credential(value: string): Option<(string, string)> {
    var parts := Split(value);
    if parts[0] != "" && |parts| >= 2 && parts[1] != "" then Some((parts[0], parts[1])) else None
  }

  /** An entry is loaded exactly when it starts with a non-empty name, a colon and a
      non-empty password; whatever follows a second colon is dropped. */
  lemma {:induction false} CredentialShape(value: string, user: string, password: string)
    ensures Credential(value) == Some((user, password)) <==>
      && user != "" && password != "" && ':' !in user && ':' !in password
      && (value == user + ":" + password || user + ":" + password + ":" <= value)
  {
    var parts := Split(value);
    JoinSplit(value);
    SplitColonFree(value);
    if Credential(value) == Some((user, password)) {
      assert parts[0] == user && parts[1] == password;
      assert ':' !in parts[0] && ':' !in parts[1];
      if |parts| == 2 {
        assert parts[1..] == [password];
      } else {
        assert Join(parts[1..]) == password + ":" + Join(parts[2..]) by {
          assert parts[1..][1..] == parts[2..];
        }
        assert value == user + ":" + password + ":" + Join(parts[2..]);
      }
    }
    if && user != "" && password != "" && ':' !in user && ':' !in password
       && (value == user + ":" + password || user + ":" + password + ":" <= value)
    {
      if value == user + ":" + password {
        CredentialOf(user, password);
      } else {
        var tail := value[|user| + |password| + 2..];
        assert value == user + ":" + password + ":" + tail;
        CredentialOfLonger(user, password, tail);
      }
    }
  }

  lemma {:induction false} CredentialOf(user: string, password: string)
    requires user != "" && password != "" && ':' !in user && ':' !in password
    ensures Credential(user + ":" + password) == Some((user, password))
  {
    assert user + ":" + password == Join([user, password]) by {
      assert [user, password][1..] == [password];
    }
    SplitJoin([user, password]);
  }

  lemma {:induction false} CredentialOfLonger(user: string, password: string, tail: string)
    requires user != "" && password != "" && ':' !in user && ':' !in password
    ensures Credential(user + ":" + password + ":" + tail) == Some((user, password))
  {
    var t := ":" + tail;
    assert t[1..] == tail;
    assert Split(t) == [""] + Split(tail);
    SplitWord(password, t);
    assert password + "" == password;
    assert Split(password + t)[0] == password;
    var pt := ":" + (password + t);
    assert pt[1..] == password + t;
    assert Split(pt) == [""] + Split(password + t);
    SplitWord(user, pt);
    assert user + "" == user;
    var parts := Split(user + pt);
    assert parts[0] == user;
    assert parts[1] == password;
    assert user + pt == user + ":" + password + ":" + tail;
  }

  /** The name of the n-th variable of a role, `CAMERA_${n}`. */
  function EnvKey(prefix: string, n: nat): string {
    prefix + Decimal.NatToString(n)
  }

  lemma {:induction false} EnvKeyInjective(prefix: string, a: nat, b: nat)
    requires EnvKey(prefix, a) == EnvKey(prefix, b)
    ensures a == b
  {
    assert Decimal.NatToString(a) == EnvKey(prefix, a)[|prefix|..];
    assert Decimal.NatToString(b) == EnvKey(prefix, b)[|prefix|..];
    Decimal.NatToStringInjective(a, b);
  }

  /** process.env[key] is truthy: set and not the empty string. */
  predicate Present(env: map<string, string>, key: string) {
    key in env && env[key] != ""
  }

  /** The scan of a role reads variables 1..n and stops at n + 1. */
  ghost predicate ScanStops(env: map<string, string>, prefix: string, n: nat) {
    && (forall k :: 1 <= k <= n ==> Present(env, EnvKey(prefix, k)))
    && !Present(env, EnvKey(prefix, n + 1))
  }

  /** The table built from variables 1..n; a later entry for the same name overwrites. */
  function Loaded(env: map<string, string>, prefix: string, hash: string -> Digest, n: nat): map<string, Digest>
    requires forall k :: 1 <= k <= n ==> Present(env, EnvKey(prefix, k))
  {
    if n == 0 then map[]
    else
      assert Present(env, EnvKey(prefix, n));
      AddEntry(Loaded(env, prefix, hash, n - 1), env[EnvKey(prefix, n)], hash)
  }

  /** The account tables are plain JavaScript objects. Assigning a string to the key
      __proto__ goes through the prototype setter, which ignores it: no own key is made. */
  const ProtoKey: string := "__proto__"

  predicate Storable(user: string) {
    user != ProtoKey
  }

  /** One entry read by the scan: a well-formed account is stored under its user name
      with its password digest, overwriting any earlier one. */
  function AddEntry(table: map<string, Digest>, value: string, hash: string -> Digest): map<string, Digest> {
    var c := Credential(value);
    if c.Some? && Storable(c.value.0) then table[c.value.0 := hash(c.value.1)] else table
  }

  /** The user name that variable k stores, if any. */
  function UserAt(env: map<string, string>, prefix: string, k: nat): Option<string>
    requires Present(env, EnvKey(prefix, k))
  {
    var c := Credential(env[EnvKey(prefix, k)]);
    if c.Some? && Storable(c.value.0) then Some(c.value.0) else None
  }

  /** No scan ever stores the name __proto__, whatever the environment holds. */
  lemma {:induction false} ProtoNeverLoaded(env: map<string, string>, prefix: string, hash: string -> Digest, n: nat)
    requires forall k :: 1 <= k <= n ==> Present(env, EnvKey(prefix, k))
    ensures ProtoKey !in Loaded(env, prefix, hash, n)
  {
    if n > 0 {
      ProtoNeverLoaded(env, prefix, hash, n - 1);
    }
  }

  /** Every loaded name comes from some scanned variable. */
  lemma {:induction false} LoadedFromEntries(env: map<string, string>, prefix: string, hash: string -> Digest, n: nat, user: string)
    requires forall k :: 1 <= k <= n ==> Present(env, EnvKey(prefix, k))
    requires user in Loaded(env, prefix, hash, n)
    ensures exists k :: 1 <= k <= n && UserAt(env, prefix, k) == Some(user)
  {
    if n > 0 {
      if UserAt(env, prefix, n) != Some(user) {
        LoadedFromEntries(env, prefix, hash, n - 1, user);
      }
    }
  }

  /** A loaded name maps to the digest of the password of its last scanned entry. */
  lemma {:induction false} LoadedLastWins(env: map<string, string>, prefix: string, hash: string -> Digest,
                                          n: nat, k: nat, user: string, password: string)
    requires forall j :: 1 <= j <= n ==> Present(env, EnvKey(prefix, j))
    requires 1 <= k <= n && Present(env, EnvKey(prefix, k))
    requires Credential(env[EnvKey(prefix, k)]) == Some((user, password)) && Storable(user)
    requires forall j :: k < j <= n ==> UserAt(env, prefix, j) != Some(user)
    ensures user in Loaded(env, prefix, hash, n) && Loaded(env, prefix, hash, n)[user] == hash(password)
  {
    if k < n {
      LoadedLastWins(env, prefix, hash, n - 1, k, user, password);
      assert UserAt(env, prefix, n) != Some(user);
    }
  }

  /** The development accounts, used only when no variable yields an account. */
  function WithDemoFallback(users: Users, hash: string -> Digest): (r: Users)
    ensures |r.cameras| > 0 || |r.viewers| > 0
    ensures |users.cameras| > 0 || |users.viewers| > 0 ==> r == users
    ensures |users.cameras| == 0 && |users.viewers| == 0 ==>
      && r.cameras.Keys == {"camera_demo"} && r.cameras["camera_demo"] == hash("demo123")
      && r.viewers.Keys == {"viewer_demo"} && r.viewers["viewer_demo"] == hash("demo123")
  {
    if |users.cameras| == 0 && |users.viewers| == 0
    then Users(map["camera_demo" := hash("demo123")], map["viewer_demo" := hash("demo123")])
    else users
  }

  lemma SetShrinks<T>(all: set<T>, seen: set<T>, x: T)
    requires x in all && x !in seen
    ensures |all - (seen + {x})| < |all - seen|
  {
    assert all - seen == (all - (seen + {x})) + {x};
  }

  /** The scan has read variables 1..index-1, and seen holds exactly their keys. */
  ghost predicate Scanned(env: map<string, string>, prefix: string, index: nat, seen: set<string>) {
    && 1 <= index
    && (forall k :: 1 <= k < index ==> Present(env, EnvKey(prefix, k)))
    && (forall k: nat :: EnvKey(prefix, k) in seen ==> k < index)
    && seen <= env.Keys
  }

  /** Reading one more present variable keeps the scan state and uses up one key. */
  lemma {:induction false} ScanStep(env: map<string, string>, prefix: string, index: nat, seen: set<string>)
    requires Scanned(env, prefix, index, seen) && Present(env, EnvKey(prefix, index))
    ensures Scanned(env, prefix, index + 1, seen + {EnvKey(prefix, index)})
    ensures |env.Keys - (seen + {EnvKey(prefix, index)})| < |env.Keys - seen|
  {
    var key := EnvKey(prefix, index);
    assert key !in seen;
    SetShrinks(env.Keys, seen, key);
    forall k: nat | EnvKey(prefix, k) == key ensures k == index {
      EnvKeyInjective(prefix, k, index);
    }
  }

  /** One of the two while loops of loadUsersFromEnv; n is the number of variables read,
      one less than the index at which the loop stops. */
  method LoadRole(env: map<string, string>, prefix: string, hash: string -> Digest)
    returns (table: map<string, Digest>, n: nat)
    ensures ScanStops(env, prefix, n)
    ensures table == Loaded(env, prefix, hash, n)
  {
    table := map[];
    var index := 1;
    ghost var seen: set<string> := {};
    while Present(env, EnvKey(prefix, index))
      invariant Scanned(env, prefix, index, seen)
      invariant table == Loaded(env, prefix, hash, index - 1)
      decreases |env.Keys - seen|
    {
      var key := EnvKey(prefix, index);
      ghost var before := table;
      var c := Credential(env[key]);
      if c.Some? && c.value.0 != ProtoKey {
        table := table[c.value.0 := hash(c.value.1)];
      }
      assert table == AddEntry(before, env[key], hash);
      ScanStep(env, prefix, index, seen);
      seen := seen + {key};
      index := index + 1;
    }
    n := index - 1;
  }

  /** loadUsersFromEnv: both scans, then the development fallback. */
  method LoadUsersFromEnv(env: map<string, string>, hash: string -> Digest)
    returns (users: Users, cameraCount: nat, viewerCount: nat)
    ensures ScanStops(env, "CAMERA_", cameraCount) && ScanStops(env, "VIEWER_", viewerCount)
    ensures users == WithDemoFallback(Users(Loaded(env, "CAMERA_", hash, cameraCount),
                                            Loaded(env, "VIEWER_", hash, viewerCount)), hash)
  {
    var cams, views;
    cams, cameraCount := LoadRole(env, "CAMERA_", hash);
    views, viewerCount := LoadRole(env, "VIEWER_", hash);
    users := Users(cams, views);
    if |users.cameras| == 0 && |users.viewers| == 0 {
      users := Users(map["camera_demo" := hash("demo123")], map["viewer_demo" := hash("demo123")]);
    }
  }

  /** USERS is what loadUsersFromEnv builds from env. */
  ghost predicate UsersFrom(env: map<string, string>, hash: string -> Digest, users: Users) {
    exists cameraCount: nat, viewerCount: nat ::
      && ScanStops(env, "CAMERA_", cameraCount) && ScanStops(env, "VIEWER_", viewerCount)
      && users == WithDemoFallback(Users(Loaded(env, "CAMERA_", hash, cameraCount),
                                         Loaded(env, "VIEWER_", hash, viewerCount)), hash)
  }
}
