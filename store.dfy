/**
  The Redis-backed user directory, block list and configuration (internal/cache/redis.go),
  reduced to the state the bot observes: the known-user set, the blocked-user set (both hold
  decimal user IDs), the string keys and the per-user profile hashes. When the store is
  healthy every call succeeds; otherwise the environment decides, call by call, whether it
  fails. A set's members come back in an order the store chooses.
*/
module Store {
  import opened Options
  import opened Text
  import opened Telegram

  /** The string key holding the welcome text. */
  const WelcomeMessageKey: string := "config:welcome_message"
  /** The string key holding the raw welcome button spec. */
  const WelcomeButtonsKey: string := "config:welcome_buttons"

  /** The fields of a user's profile hash; a missing field reads as "". */
  datatype Profile = Profile(firstName: string, lastName: string, userName: string)

  const NoProfile: Profile := Profile("", "", "")

  /** `ids` lists the members of `s`, each once, in some order. */
  predicate Lists(ids: seq<string>, s: set<string>) {
    && |ids| == |s|
    && (forall i :: 0 <= i < |ids| ==> ids[i] in s)
    && (forall x :: x in s ==> x in ids)
    && (forall i, j :: 0 <= i < j < |ids| ==> ids[i] != ids[j])
  }

  lemma {:induction false} ListingExists(s: set<string>) returns (ids: seq<string>)
    ensures Lists(ids, s)
    decreases |s|
  {
    if s == {} {
      ids := [];
    } else {
      var x :| x in s;
      var rest := ListingExists(s - {x});
      ids := rest + [x];
      assert forall y :: y in s ==> y in ids by {
        forall y | y in s ensures y in ids {
          if y != x { assert y in rest; }
        }
      }
    }
  }

  /** GET on a string key: a missing key reads as the empty string. */
  function ValueOf(config: map<string, string>, key: string): string {
    if key in config then config[key] else ""
  }

  /** HMGET on a user's hash: a missing hash reads as empty fields. */
  function ProfileOf(profiles: map<int, Profile>, id: int): Profile {
    if id in profiles then profiles[id] else NoProfile
  }

  class KeyValueStore {
    /** Whether every call is guaranteed to succeed. */
    const healthy: bool
    /** Members of the set `telegram_bot_users`. */
    var known: set<string>
    /** Members of the set `blocked_users`. */
    var blocked: set<string>
    /** The string keys. */
    var config: map<string, string>
    /** The hashes `user:<id>`. */
    var profiles: map<int, Profile>

    constructor (healthy: bool)
      ensures this.healthy == healthy
      ensures known == {} && blocked == {} && config == map[] && profiles == map[]
    {
      this.healthy := healthy;
      known, blocked, config, profiles := {}, {}, map[], map[];
    }

    /** Whether the next call fails: never when healthy, the environment's choice otherwise. */
    method Outcome() returns (err: bool)
      ensures healthy ==> !err
    {
      err := *;
      if healthy {
        err := false;
      }
    }

    /** CheckAndAddUser: SADD of the decimal ID to the known-user set; a failure is ignored. */
    method AddKnown(id: int)
      modifies this
      ensures known == old(known) + {FormatInt(id)} || (!healthy && known == old(known))
      ensures blocked == old(blocked) && config == old(config) && profiles == old(profiles)
    {
      var err := Outcome();
      if !err {
        known := known + {FormatInt(id)};
      }
    }

    /** GetAllUserIDs on the known-user set: nothing on failure. */
    method KnownIds() returns (ids: seq<string>, err: bool)
      ensures healthy ==> !err
      ensures err ==> ids == []
      ensures !err ==> Lists(ids, known)
    {
      err := Outcome();
      ids := [];
      if !err {
        var listing := ListingExists(known);
        ids :| Lists(ids, known);
      }
    }

    /** GetBlockedUserIDs: nothing on failure. */
    method BlockedIds() returns (ids: seq<string>, err: bool)
      ensures healthy ==> !err
      ensures err ==> ids == []
      ensures !err ==> Lists(ids, blocked)
    {
      err := Outcome();
      ids := [];
      if !err {
        var listing := ListingExists(blocked);
        ids :| Lists(ids, blocked);
      }
    }

    /** IsUserBlocked: SISMEMBER, which reads as false on failure. */
    method IsBlocked(id: int) returns (isBlocked: bool, err: bool)
      ensures healthy ==> !err
      ensures isBlocked == (!err && FormatInt(id) in blocked)
    {
      err := Outcome();
      isBlocked := !err && FormatInt(id) in blocked;
    }

    /** AddBlockedUser. */
    method AddBlocked(id: int) returns (err: bool)
      modifies this
      ensures healthy ==> !err
      ensures blocked == if err then old(blocked) else old(blocked) + {FormatInt(id)}
      ensures known == old(known) && config == old(config) && profiles == old(profiles)
    {
      err := Outcome();
      if !err {
        blocked := blocked + {FormatInt(id)};
      }
    }

    /** RemoveBlockedUser. */
    method RemoveBlocked(id: int) returns (err: bool)
      modifies this
      ensures healthy ==> !err
      ensures blocked == if err then old(blocked) else old(blocked) - {FormatInt(id)}
      ensures known == old(known) && config == old(config) && profiles == old(profiles)
    {
      err := Outcome();
      if !err {
        blocked := blocked - {FormatInt(id)};
      }
    }

    /** SetConfigValue: SET of a string key. */
    method SetConfig(key: string, value: string) returns (err: bool)
      modifies this
      ensures healthy ==> !err
      ensures config == if err then old(config) else old(config)[key := value]
      ensures known == old(known) && blocked == old(blocked) && profiles == old(profiles)
    {
      err := Outcome();
      if !err {
        config := config[key := value];
      }
    }

    /** GetConfigValue: a missing key is "" without an error; a failure also yields "". */
    method GetConfig(key: string) returns (value: string, err: bool)
      ensures healthy ==> !err
      ensures value == if err then "" else ValueOf(config, key)
    {
      err := Outcome();
      value := if err then "" else ValueOf(config, key);
    }

    /**
      StoreUserInfo: three HSETs on `user:<id>` (first name, last name, user name), stopping
      at the first failure, so a failure can leave the hash partly written.
    */
    method StoreUserInfo(user: User) returns (err: bool)
      modifies this
      ensures healthy ==> !err
      ensures !err ==> profiles == old(profiles)[user.id := Profile(user.firstName, user.lastName, user.userName)]
      ensures err ==> profiles.Keys <= old(profiles).Keys + {user.id}
      ensures forall id :: id != user.id && id in old(profiles) ==> id in profiles && profiles[id] == old(profiles)[id]
      ensures known == old(known) && blocked == old(blocked) && config == old(config)
    {
      var p := ProfileOf(profiles, user.id);
      err := Outcome();
      if err { return; }
      p := p.(firstName := user.firstName);
      profiles := profiles[user.id := p];
      err := Outcome();
      if err { return; }
      p := p.(lastName := user.lastName);
      profiles := profiles[user.id := p];
      err := Outcome();
      if err { return; }
      p := p.(userName := user.userName);
      profiles := profiles[user.id := p];
    }

    /** GetUserInfo: the three profile fields, all "" on failure. */
    method GetUserInfo(id: int) returns (p: Profile, err: bool)
      ensures healthy ==> !err
      ensures p == if err then NoProfile else ProfileOf(profiles, id)
    {
      err := Outcome();
      p := if err then NoProfile else ProfileOf(profiles, id);
    }
  }
}
