/** The in-memory user store: one record under two keys. */
module Users {
  import opened Wrappers
  import opened Text

  datatype User = User(
    id: string,
    email: string,
    balance: real,
    gitHubToken: string,
    telegramUsername: string,
    telegramLinkCode: string,
    telegramLinkExpiresAt: Option<int>,
    telegramChatID: int,
    telegramLinkedAt: Option<int>,
    notificationsEnabled: bool)

  datatype UserMaps = UserMaps(byID: map<string, User>, byEmail: map<string, User>)

  /** What the update methods do to a record; none touches the id or the email. */
  datatype Edit =
    | SetBalance(balance: real)
    | SetGitHubToken(token: string)
    | SetTelegram(username: string, linkCode: string, linkExpiresAt: Option<int>, enabled: bool)
    | LinkChat(chatID: int, at: int)
    | DisableNotifications
    | ClearTelegram
  {
    function On(user: User): (edited: User)
      ensures edited.id == user.id && edited.email == user.email
      ensures edited.balance == if SetBalance? then balance else user.balance
    {
      match this
      case SetBalance(amount) => user.(balance := amount)
      case SetGitHubToken(token) => user.(gitHubToken := token)
      case SetTelegram(username, code, expires, enabled) =>
        if username == "" then NoTelegram(user)
        else user.(telegramUsername := username, telegramLinkCode := code,
                   telegramLinkExpiresAt := expires, notificationsEnabled := enabled)
      case LinkChat(chat, at) =>
        user.(telegramChatID := chat, telegramLinkedAt := Some(at), telegramLinkCode := "",
              telegramLinkExpiresAt := None, notificationsEnabled := true)
      case DisableNotifications => user.(notificationsEnabled := false)
      case ClearTelegram => NoTelegram(user)
    }
  }

  function NoTelegram(user: User): User {
    user.(telegramUsername := "", telegramChatID := 0, telegramLinkedAt := None, telegramLinkCode := "",
          telegramLinkExpiresAt := None, notificationsEnabled := false)
  }

  function Created(m: UserMaps, user: User): UserMaps {
    if user.email in m.byEmail then m
    else UserMaps(m.byID[user.id := user], m.byEmail[user.email := user])
  }

  function Edited(m: UserMaps, id: string, edit: Edit): UserMaps {
    if id !in m.byID then m
    else
      var user := edit.On(m.byID[id]);
      UserMaps(m.byID[id := user], m.byEmail[user.email := user])
  }

  /** The two maps hold the same users, each under its own id and its own email. */
  ghost predicate InStep(m: UserMaps) {
    && (forall id :: id in m.byID ==>
          var u := m.byID[id]; u.id == id && u.email in m.byEmail && m.byEmail[u.email] == u)
    && (forall email :: email in m.byEmail ==>
          var u := m.byEmail[email]; u.email == email && u.id in m.byID && m.byID[u.id] == u)
  }

  datatype Operation = Create(user: User) | Change(id: string, edit: Edit)

  function Perform(m: UserMaps, op: Operation): UserMaps {
    match op
    case Create(user) => Created(m, user)
    case Change(id, edit) => Edited(m, id, edit)
  }

  function PerformAll(m: UserMaps, ops: seq<Operation>): UserMaps {
    if ops == [] then m else Perform(PerformAll(m, ops[..|ops| - 1]), ops[|ops| - 1])
  }

  /** The ids given to Create are new: they come from a random generator. */
  ghost predicate FreshIDs(m: UserMaps, ops: seq<Operation>) {
    forall i :: 0 <= i < |ops| && ops[i].Create? ==> ops[i].user.id !in PerformAll(m, ops[..i]).byID
  }

  /** Create does not look at the id, so it keeps the maps in step exactly if the email is taken or the id is new. */
  lemma CreateKeepsStepIffFresh(m: UserMaps, user: User)
    requires InStep(m)
    ensures InStep(Created(m, user)) <==> user.email in m.byEmail || user.id !in m.byID
  {
    var m' := Created(m, user);
    if user.email !in m.byEmail && user.id in m.byID {
      var was := m.byID[user.id];
      assert was.email in m'.byEmail && m'.byEmail[was.email] == was;
      assert m'.byID[was.id] != was;
    }
  }

  lemma EditKeepsStep(m: UserMaps, id: string, edit: Edit)
    requires InStep(m)
    ensures InStep(Edited(m, id, edit))
    ensures Edited(m, id, edit).byID.Keys == m.byID.Keys
  {
  }

  /** After any operations the two maps are in step, so a lookup by either key finds the same record. */
  lemma {:induction false} AlwaysInStep(ops: seq<Operation>)
    requires FreshIDs(UserMaps(map[], map[]), ops)
    ensures InStep(PerformAll(UserMaps(map[], map[]), ops))
  {
    if ops != [] {
      var empty, front, last := UserMaps(map[], map[]), ops[..|ops| - 1], ops[|ops| - 1];
      assert forall i :: 0 <= i < |front| ==> front[..i] == ops[..i];
      AlwaysInStep(front);
      match last
      case Create(user) => CreateKeepsStepIffFresh(PerformAll(empty, front), user);
      case Change(id, edit) => EditKeepsStep(PerformAll(empty, front), id, edit);
    }
  }

  class UserStore {
    var byID: map<string, User>
    var byEmail: map<string, User>

    ghost function View(): UserMaps
      reads this
    {
      UserMaps(byID, byEmail)
    }

    constructor ()
      ensures View() == UserMaps(map[], map[])
    {
      byID, byEmail := map[], map[];
    }

    method Create(user: User) returns (ok: bool)
      modifies this
      ensures ok == (user.email !in old(byEmail))
      ensures View() == Created(old(View()), user)
    {
      if user.email in byEmail {
        return false;
      }
      byID := byID[user.id := user];
      byEmail := byEmail[user.email := user];
      ok := true;
    }

    method GetByEmail(email: string) returns (user: Option<User>)
      ensures user == if email in byEmail then Some(byEmail[email]) else None
    {
      user := if email in byEmail then Some(byEmail[email]) else None;
    }

    method GetByID(id: string) returns (user: Option<User>)
      ensures user == if id in byID then Some(byID[id]) else None
    {
      user := if id in byID then Some(byID[id]) else None;
    }

    /** The first match in an order nobody controls. */
    method GetByTelegramUsername(username: string) returns (user: Option<User>)
      ensures IsTelegramMatch(byID, TelegramName(username), user)
    {
      var normalized := TelegramName(username);
      var left := byID.Keys;
      while left != {}
        invariant left <= byID.Keys
        invariant forall id :: id in byID && id !in left ==> !HasTelegram(byID[id], normalized)
      {
        var id :| id in left;
        if HasTelegram(byID[id], normalized) {
          return Some(byID[id]);
        }
        left := left - {id};
      }
      user := None;
    }

    method Put(id: string, user: User)
      modifies this
      ensures View() == UserMaps(old(byID)[id := user], old(byEmail)[user.email := user])
    {
      byID := byID[id := user];
      byEmail := byEmail[user.email := user];
    }

    method UpdateBalance(id: string, balance: real) returns (ok: bool)
      modifies this
      ensures ok == (id in old(byID))
      ensures View() == Edited(old(View()), id, SetBalance(balance))
      ensures byID == if ok then old(byID)[id := old(byID)[id].(balance := balance)] else old(byID)
    {
      if id !in byID {
        return false;
      }
      Put(id, byID[id].(balance := balance));
      ok := true;
    }

    method UpdateGitHubToken(id: string, token: string) returns (ok: bool)
      modifies this
      ensures ok == (id in old(byID))
      ensures View() == Edited(old(View()), id, SetGitHubToken(token))
      ensures byID == if ok then old(byID)[id := old(byID)[id].(gitHubToken := token)] else old(byID)
    {
      if id !in byID {
        return false;
      }
      Put(id, byID[id].(gitHubToken := token));
      ok := true;
    }

    method UpdateTelegramSettings(id: string, username: string, linkCode: string, linkExpiresAt: Option<int>, enabled: bool)
      returns (ok: bool)
      modifies this
      ensures ok == (id in old(byID))
      ensures View() == Edited(old(View()), id, SetTelegram(username, linkCode, linkExpiresAt, enabled))
      ensures ok && username != "" ==>
        byID == old(byID)[id := old(byID)[id].(telegramUsername := username, telegramLinkCode := linkCode,
                                               telegramLinkExpiresAt := linkExpiresAt, notificationsEnabled := enabled)]
      ensures ok && username == "" ==> byID == old(byID)[id := byID[id]] && HasNoTelegram(old(byID)[id], byID[id])
    {
      if id !in byID {
        return false;
      }
      var user := byID[id].(telegramUsername := username, telegramLinkCode := linkCode,
                            telegramLinkExpiresAt := linkExpiresAt, notificationsEnabled := enabled);
      if user.telegramUsername == "" {
        user := user.(telegramChatID := 0, telegramLinkedAt := None, telegramLinkCode := "",
                      telegramLinkExpiresAt := None, notificationsEnabled := false);
      }
      Put(id, user);
      ok := true;
    }

    method LinkTelegramChat(id: string, chatID: int, linkedAt: int) returns (ok: bool)
      modifies this
      ensures ok == (id in old(byID))
      ensures View() == Edited(old(View()), id, LinkChat(chatID, linkedAt))
      ensures ok ==>
        byID == old(byID)[id := old(byID)[id].(telegramChatID := chatID, telegramLinkedAt := Some(linkedAt), telegramLinkCode := "",
                                               telegramLinkExpiresAt := None, notificationsEnabled := true)]
    {
      if id !in byID {
        return false;
      }
      Put(id, byID[id].(telegramChatID := chatID, telegramLinkedAt := Some(linkedAt), telegramLinkCode := "",
                        telegramLinkExpiresAt := None, notificationsEnabled := true));
      ok := true;
    }

    method DisableTelegramNotifications(id: string) returns (ok: bool)
      modifies this
      ensures ok == (id in old(byID))
      ensures View() == Edited(old(View()), id, DisableNotifications)
      ensures ok ==> byID == old(byID)[id := old(byID)[id].(notificationsEnabled := false)]
    {
      if id !in byID {
        return false;
      }
      Put(id, byID[id].(notificationsEnabled := false));
      ok := true;
    }

    method ClearTelegramSettings(id: string) returns (ok: bool)
      modifies this
      ensures ok == (id in old(byID))
      ensures View() == Edited(old(View()), id, ClearTelegram)
      ensures ok ==> byID == old(byID)[id := byID[id]] && HasNoTelegram(old(byID)[id], byID[id])
    {
      if id !in byID {
        return false;
      }
      Put(id, byID[id].(telegramUsername := "", telegramChatID := 0, telegramLinkedAt := None, telegramLinkCode := "",
                        telegramLinkExpiresAt := None, notificationsEnabled := false));
      ok := true;
    }
  }

  /** Every trace of Telegram is gone, and nothing else. */
  predicate HasNoTelegram(was: User, user: User) {
    && user.telegramUsername == "" && user.telegramChatID == 0 && user.telegramLinkedAt.None?
    && user.telegramLinkCode == "" && user.telegramLinkExpiresAt.None? && !user.notificationsEnabled
    && user.id == was.id && user.email == was.email && user.balance == was.balance && user.gitHubToken == was.gitHubToken
  }

  function TelegramName(username: string): string {
    var trimmed := Trim(username);
    if trimmed != "" && trimmed[0] == '@' then trimmed[1..] else trimmed
  }

  /** One leading at sign is optional in a Telegram name, and so are margins. */
  lemma AtSignIsOptional(name: string)
    requires name != "" && name[0] != '@' && !IsSpace(name[0]) && !IsSpace(name[|name| - 1])
    ensures TelegramName(name) == name == TelegramName("@" + name)
    ensures TelegramName("@@" + name) == "@" + name
  {
    TrimFixes(name, IsSpace);
    TrimFixes("@" + name, IsSpace);
    TrimFixes("@@" + name, IsSpace);
    assert ("@@" + name)[1..] == "@" + name;
  }

  predicate HasTelegram(user: User, name: string) {
    EqualFold(user.telegramUsername, name)
  }

  ghost predicate IsTelegramMatch(byID: map<string, User>, name: string, user: Option<User>) {
    match user
    case Some(u) => HasTelegram(u, name) && u in byID.Values
    case None => forall id :: id in byID ==> !HasTelegram(byID[id], name)
  }
}
