/** The users page (js/admin-users.js): the table of app users, the device
    list of the create-user form, and its create and delete actions over the
    mirrored `users` and `devices` tables. */
module AdminUsers {
  import opened Wrappers
  import opened Seqs
  import opened Records
  import opened Accounts

  /** What `renderUsersTable` draws: the "no users" row, or one row per user. */
  datatype UsersView = NoUsers | Rows(users: seq<User>)

  /** `renderUsersTable` over `Object.values(usersData)`: every user that is not
      an administrator, in table order, or the "no users" row when there is none. */
  function UsersTable(users: seq<User>): (v: UsersView)
    ensures v == NoUsers <==> forall u | u in users :: u.role == Some("admin")
    ensures v.Rows? ==> v.users != [] && IsSubseq(v.users, users)
    ensures v.Rows? ==> forall u | u in v.users :: u in users && u.role != Some("admin")
    ensures v.Rows? ==> forall u | u in users && u.role != Some("admin") :: u in v.users
    ensures v.Rows? ==> forall u :: multiset(v.users)[u] == if u.role != Some("admin") then multiset(users)[u] else 0
  {
    var shown := AppUsers(users);
    assert shown != [] ==> shown[0] in shown;
    if shown == [] then NoUsers else Rows(shown)
  }

  /** Read over the `users` table itself: the rows are the stored users that
      are not administrators. */
  lemma UsersTableOfTable(users: map<string, User>, order: seq<string>)
    requires Enumerates(order, users)
    ensures UsersTable(Values(users, order)) == NoUsers <==>
      forall k | k in users :: users[k].role == Some("admin")
    ensures UsersTable(Values(users, order)).Rows? ==>
      forall u :: u in UsersTable(Values(users, order)).users <==> u in users.Values && u.role != Some("admin")
  {
    ValuesMembers(users, order);
    var us := Values(users, order);
    if forall k | k in users :: users[k].role == Some("admin") {
      forall u | u in us ensures u.role == Some("admin") {
        assert u in users.Values;
      }
    }
    if forall u | u in us :: u.role == Some("admin") {
      forall k | k in users ensures users[k].role == Some("admin") {
        assert users[k] in users.Values;
      }
    }
  }

  /** The page's copies of the two tables, as their listeners last stored them. */
  class UsersPage {
    var users: map<string, User>
    var devices: map<string, Device>

    constructor ()
      ensures users == map[] && devices == map[]
    {
      users, devices := map[], map[];
    }

    /** `usersRef.on('value', ...)`: store the table, then draw it. */
    method OnUsersValue(val: Option<map<string, User>>, order: seq<string>) returns (view: UsersView)
      requires Enumerates(order, Snapshot(val))
      modifies this`users
      ensures users == Snapshot(val)
      ensures view == UsersTable(Values(users, order))
    {
      users := Snapshot(val);
      view := UsersTable(Values(users, order));
    }

    /** `devicesRef.on('value', ...)`: store the table, then refresh the form's
        device list. */
    method OnDevicesValue(val: Option<map<string, Device>>, deviceOrder: seq<string>, userOrder: seq<string>)
      returns (options: seq<Device>)
      requires Enumerates(deviceOrder, Snapshot(val)) && Enumerates(userOrder, users)
      modifies this`devices
      ensures devices == Snapshot(val)
      ensures IsSubseq(options, Values(devices, deviceOrder))
      ensures forall d | d in options :: d in devices.Values && IsAvailable(d, users)
      ensures forall d | d in devices.Values && IsAvailable(d, users) :: d in options
      ensures forall d :: multiset(options)[d] == if IsAvailable(d, users) then multiset(Values(devices, deviceOrder))[d] else 0
    {
      devices := Snapshot(val);
      options := UpdateDeviceSelect(deviceOrder, userOrder);
    }

    /** `updateDeviceSelect`: the approved devices no user holds, in table order. */
    method UpdateDeviceSelect(deviceOrder: seq<string>, userOrder: seq<string>) returns (options: seq<Device>)
      requires Enumerates(deviceOrder, devices) && Enumerates(userOrder, users)
      ensures IsSubseq(options, Values(devices, deviceOrder))
      ensures forall d | d in options :: d in devices.Values && IsAvailable(d, users)
      ensures forall d | d in devices.Values && IsAvailable(d, users) :: d in options
      ensures forall d :: multiset(options)[d] == if IsAvailable(d, users) then multiset(Values(devices, deviceOrder))[d] else 0
    {
      options := AvailableDevices(Values(devices, deviceOrder), Values(users, userOrder));
      AvailableDevicesOfTables(devices, deviceOrder, users, userOrder);
    }

    /** The form's submit handler: the error it stops at, or the table with
        the new user. The devices are not touched. */
    method SubmitCreateUser(deviceCode: string, usernameInput: string, passwordInput: string, createdAt: int)
      returns (error: Option<CreateError>)
      modifies this`users
      ensures var outcome := CreateUser(old(users), usernameInput, passwordInput, deviceCode, createdAt);
        && (outcome.Ok? ==> error == None && users == outcome.value)
        && (outcome.Err? ==> error == Some(outcome.error) && users == old(users))
      ensures devices == old(devices)
    {
      var outcome := CreateUser(users, usernameInput, passwordInput, deviceCode, createdAt);
      if outcome.Ok? {
        users := outcome.value;
        error := None;
      } else {
        error := Some(outcome.error);
      }
    }

    /** `deleteUser` once confirmed: only that key goes; the devices stay. */
    method DeleteUser(username: string)
      modifies this`users
      ensures users == RemoveKey(old(users), username)
      ensures devices == old(devices)
    {
      users := RemoveKey(users, username);
    }
  }
}
