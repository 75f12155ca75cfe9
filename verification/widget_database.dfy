/**
 * The older database facade of `anon/Widget/Database.php`: four fixed
 * repositories, chosen for an unknown method call by the prefix of the
 * method's name, with a fixed fallback order. Which methods a repository
 * has (`method_exists`) is the parameter `hasMethod`.
 */
module WidgetDatabase {
  import opened Common

  datatype Repo = UserRepo | MessageRepo | MemberRepo | AvatarService

  /** True when `name` begins with one of `prefixes`. */
  predicate StartsWithAny(name: string, prefixes: seq<string>) {
    exists i :: 0 <= i < |prefixes| && prefixes[i] <= name
  }

  const UserPrefixes: seq<string> := ["getUser", "isUser", "addUser", "updateUser"]
  const MessagePrefixes: seq<string> := ["getMessage", "addMessage", "updateMessage", "deleteMessage"]
  const MemberPrefixes: seq<string> := ["getMember", "addMember", "updateMember", "deleteMember"]
  const AvatarPrefixes: seq<string> := ["getAvatar"]

  /** `resolveForwardTarget`: the prefix tables are tried in this order; no match gives null. */
  function ResolveForwardTarget(name: string): (r: Option<Repo>)
    ensures r == Some(UserRepo) <==> StartsWithAny(name, UserPrefixes)
    ensures r == Some(MessageRepo) <==> !StartsWithAny(name, UserPrefixes) && StartsWithAny(name, MessagePrefixes)
    ensures r == Some(MemberRepo) <==>
              !StartsWithAny(name, UserPrefixes) && !StartsWithAny(name, MessagePrefixes) && StartsWithAny(name, MemberPrefixes)
    ensures r == Some(AvatarService) <==>
              !StartsWithAny(name, UserPrefixes) && !StartsWithAny(name, MessagePrefixes) &&
              !StartsWithAny(name, MemberPrefixes) && StartsWithAny(name, AvatarPrefixes)
  {
    if StartsWithAny(name, UserPrefixes) then Some(UserRepo)
    else if StartsWithAny(name, MessagePrefixes) then Some(MessageRepo)
    else if StartsWithAny(name, MemberPrefixes) then Some(MemberRepo)
    else if StartsWithAny(name, AvatarPrefixes) then Some(AvatarService)
    else None
  }

  /** The order `__call` falls back through. */
  const FallbackOrder: seq<Repo> := [UserRepo, MessageRepo, MemberRepo, AvatarService]

  datatype CallTarget = Forward(repo: Repo) | BadMethodCall

  /** The first of `repos` that has the method. */
  function FirstWithMethod(repos: seq<Repo>, name: string, hasMethod: (Repo, string) -> bool): (r: Option<Repo>)
    ensures r.Some? ==> hasMethod(r.value, name) && r.value in repos
    ensures r.None? <==> forall i :: 0 <= i < |repos| ==> !hasMethod(repos[i], name)
    decreases |repos|
  {
    if |repos| == 0 then None
    else if hasMethod(repos[0], name) then Some(repos[0])
    else
      assert forall i :: 1 <= i < |repos| ==> repos[i] == repos[1..][i - 1];
      FirstWithMethod(repos[1..], name, hasMethod)
  }

  /** The repository found is the earliest one that has the method. */
  lemma {:induction false} FirstWithMethodIsEarliest(repos: seq<Repo>, name: string,
                                                     hasMethod: (Repo, string) -> bool, k: nat)
    requires k < |repos| && hasMethod(repos[k], name)
    requires forall j :: 0 <= j < k ==> !hasMethod(repos[j], name)
    ensures FirstWithMethod(repos, name, hasMethod) == Some(repos[k])
    decreases k
  {
    if k > 0 {
      FirstWithMethodIsEarliest(repos[1..], name, hasMethod, k - 1);
    }
  }

  /**
   * `__call`: the resolved repository when it has the method, else the first
   * of user, message, member and avatar that has it, else
   * `BadMethodCallException`.
   */
  function Call(name: string, hasMethod: (Repo, string) -> bool): (t: CallTarget)
    ensures t.Forward? ==> hasMethod(t.repo, name)
    ensures ResolveForwardTarget(name).Some? && hasMethod(ResolveForwardTarget(name).value, name) ==>
              t == Forward(ResolveForwardTarget(name).value)
    ensures t == BadMethodCall <==> forall i :: 0 <= i < |FallbackOrder| ==> !hasMethod(FallbackOrder[i], name)
  {
    var target := ResolveForwardTarget(name);
    if target.Some? && hasMethod(target.value, name) then
      assert FallbackOrder[FallbackIndex(target.value)] == target.value;
      Forward(target.value)
    else
      match FirstWithMethod(FallbackOrder, name, hasMethod)
      case Some(repo) => Forward(repo)
      case None =>
        assert target.Some? ==> target.value == FallbackOrder[FallbackIndex(target.value)];
        BadMethodCall
  }

  function FallbackIndex(repo: Repo): (i: nat)
    ensures i < |FallbackOrder| && FallbackOrder[i] == repo
  {
    match repo
    case UserRepo => 0
    case MessageRepo => 1
    case MemberRepo => 2
    case AvatarService => 3
  }

  /**
   * Without a resolved target (or when it lacks the method) the call goes to
   * the first repository in fallback order that has the method.
   */
  lemma FallbackPicksFirst(name: string, hasMethod: (Repo, string) -> bool, k: nat)
    requires ResolveForwardTarget(name).None? || !hasMethod(ResolveForwardTarget(name).value, name)
    requires k < |FallbackOrder| && hasMethod(FallbackOrder[k], name)
    requires forall j :: 0 <= j < k ==> !hasMethod(FallbackOrder[j], name)
    ensures Call(name, hasMethod) == Forward(FallbackOrder[k])
  {
    FirstWithMethodIsEarliest(FallbackOrder, name, hasMethod, k);
  }

  /** `deleteUser` is in no prefix table, so it is served by the fallback order, not by the user table. */
  lemma DeleteUserIsNotResolved()
    ensures ResolveForwardTarget("deleteUser").None?
  {
    assert !StartsWithAny("deleteUser", UserPrefixes) by {
      forall i | 0 <= i < |UserPrefixes| ensures !(UserPrefixes[i] <= "deleteUser") {
        assert UserPrefixes[i][0] != 'd';
      }
    }
    assert !StartsWithAny("deleteUser", MessagePrefixes) by {
      forall i | 0 <= i < |MessagePrefixes| ensures !(MessagePrefixes[i] <= "deleteUser") {
        assert |MessagePrefixes[i]| > 6 && MessagePrefixes[i][6] != "deleteUser"[6];
      }
    }
    assert !StartsWithAny("deleteUser", MemberPrefixes) by {
      forall i | 0 <= i < |MemberPrefixes| ensures !(MemberPrefixes[i] <= "deleteUser") {
        assert |MemberPrefixes[i]| > 6 && MemberPrefixes[i][6] != "deleteUser"[6];
      }
    }
    assert !StartsWithAny("deleteUser", AvatarPrefixes) by {
      assert "getAvatar"[0] != "deleteUser"[0];
    }
  }
}
