/** The in-memory user store: accounts keyed by username, plus the logged-in user. */
module DataStore {
  import opened Wrappers

  /** A value held in a profile or preferences dictionary. */
  datatype Value =
    | Null
    | Text(s: string)
    | Number(n: int)
    | Texts(items: seq<string>)
    | Table(entries: map<string, int>)

  type Dict = map<string, Value>

  /** One account. */
  datatype UserRecord = UserRecord(
    password: string,
    profile: Dict,
    dietLog: seq<Dict>,
    fitnessLog: seq<Dict>,
    waterLog: map<string, int>,
    stepLog: map<string, int>,
    settings: Dict,
    dietPreferences: Dict)

  /** The diet preferences a new account starts with; the meal split is in whole percent. */
  const DefaultDietPreferences: Dict := map[
    "macro_preset" := Text("balanced"),
    "custom_macros" := Null,
    "dietary_restrictions" := Texts([]),
    "food_allergies" := Texts([]),
    "preferred_cuisines" := Texts(["Indian", "Breakfast", "Protein", "Dairy", "Fruit", "Snack"]),
    "exclude_foods" := Texts([]),
    "meal_distribution" := Table(map["breakfast" := 25, "lunch" := 35, "dinner" := 35, "snacks" := 5])]

  /** The record `create_user` stores: the password, empty profile and logs, a light theme, default preferences. */
  function NewUser(password: string): UserRecord
  {
    UserRecord(password, map[], [], [], map[], map[], map["theme" := Text("light")], DefaultDietPreferences)
  }

  /** `dict.update`: keys of `changes` take their new values, all other keys keep theirs. */
  function Merge(old_: Dict, changes: Dict): Dict
  {
    old_ + changes
  }

  /** Merging overwrites exactly the keys provided, adds the new ones and keeps the rest. */
  lemma MergeOverwrites(old_: Dict, changes: Dict)
    ensures Merge(old_, changes).Keys == old_.Keys + changes.Keys
    ensures forall k :: k in changes ==> Merge(old_, changes)[k] == changes[k]
    ensures forall k :: k in old_ && k !in changes ==> Merge(old_, changes)[k] == old_[k]
  {
  }

  /** Applying the same update twice is applying it once. */
  lemma MergeIdempotent(old_: Dict, changes: Dict)
    ensures Merge(Merge(old_, changes), changes) == Merge(old_, changes)
  {
  }

  class UserManager {
    var users: map<string, UserRecord>
    var currentUser: Option<string>

    constructor()
      ensures users == map[] && currentUser == None
    {
      users := map[];
      currentUser := None;
    }

    /** `username if username else current_user`: a missing or empty name means the logged-in user. */
    function Target(username: Option<string>): Option<string>
      reads this
    {
      if username.Some? && username.value != "" then username else currentUser
    }

    /** Whether `verify_user(username, password)` would accept. */
    predicate CanLogIn(username: string, password: string)
      reads this
    {
      username in users && users[username].password == password
    }

    /** `create_user`: refuses a taken name without any change; otherwise adds a fresh record and touches nothing else. */
    method CreateUser(username: string, password: string) returns (ok: bool)
      modifies this
      ensures ok <==> username !in old(users)
      ensures ok ==> users == old(users)[username := NewUser(password)]
      ensures !ok ==> users == old(users)
      ensures currentUser == old(currentUser)
      ensures ok ==> CanLogIn(username, password)
      ensures ok && username != "" ==> GetDietPreferences(Some(username)) == Some(DefaultDietPreferences)
    {
      if username in users {
        return false;
      }
      users := users[username := NewUser(password)];
      return true;
    }

    /** `verify_user`: logs the user in only on a matching password; otherwise the session is unchanged. */
    method VerifyUser(username: string, password: string) returns (ok: bool)
      modifies this
      ensures ok <==> CanLogIn(username, password)
      ensures users == old(users)
      ensures ok ==> currentUser == Some(username) && GetUserData(None) == Some(users[username])
      ensures !ok ==> currentUser == old(currentUser)
    {
      if username in users && users[username].password == password {
        currentUser := Some(username);
        return true;
      }
      return false;
    }

    /** `get_user_data`: the record of the named user, or of the logged-in one when no name is given. */
    function GetUserData(username: Option<string>): (r: Option<UserRecord>)
      reads this
      ensures r.Some? <==> Target(username).Some? && Target(username).value in users
      ensures r.Some? ==> r.value == users[Target(username).value]
    {
      var target := Target(username);
      if target.Some? && target.value in users then Some(users[target.value]) else None
    }

    /** `logout`: ends the session; the accounts stay. */
    method Logout()
      modifies this
      ensures currentUser == None && users == old(users)
      ensures GetUserData(None) == None
    {
      currentUser := None;
    }

    /** `update_profile`: replaces a known user's profile wholesale; an unknown user changes nothing. */
    method UpdateProfile(username: string, profile: Dict) returns (ok: bool)
      modifies this
      ensures ok <==> username in old(users)
      ensures ok ==> users == old(users)[username := old(users)[username].(profile := profile)]
      ensures !ok ==> users == old(users)
      ensures currentUser == old(currentUser)
    {
      if username in users {
        users := users[username := users[username].(profile := profile)];
        return true;
      }
      return false;
    }

    /** `update_diet_preferences`: merges into a known user's preferences; an unknown user changes nothing. */
    method UpdateDietPreferences(username: string, preferences: Dict) returns (ok: bool)
      modifies this
      ensures ok <==> username in old(users)
      ensures ok ==> users == old(users)[username :=
        old(users)[username].(dietPreferences := Merge(old(users)[username].dietPreferences, preferences))]
      ensures !ok ==> users == old(users)
      ensures currentUser == old(currentUser)
      ensures ok && username != "" ==> forall k :: k in preferences ==> GetDietPreferences(Some(username)).value[k] == preferences[k]
    {
      if username in users {
        var record := users[username];
        users := users[username := record.(dietPreferences := Merge(record.dietPreferences, preferences))];
        return true;
      }
      return false;
    }

    /** `get_diet_preferences`: the named (or logged-in) user's preferences, None for an unknown user. */
    function GetDietPreferences(username: Option<string>): (r: Option<Dict>)
      reads this
      ensures r.Some? <==> GetUserData(username).Some?
      ensures r.Some? ==> r.value == GetUserData(username).value.dietPreferences
    {
      var target := Target(username);
      if target.Some? && target.value in users then Some(users[target.value].dietPreferences) else None
    }
  }
}
