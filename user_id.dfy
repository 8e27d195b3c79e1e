// The older user identity of user_id.rs, over plain uuids.
module LegacyUserIds {
  import opened Wrappers
  import Uuids

  /** A user: a coined uuid, a Slack id, or both. */
  datatype UserId = Uuid(uuid: Uuids.Uuid) | Slack(slack: string) | Both(uuid: Uuids.Uuid, slack: string)
  {
    /** `UserId::uuid`. */
    function UuidOf(): (r: Option<Uuids.Uuid>)
      ensures r.Some? <==> !this.Slack?
      ensures r.Some? ==> r.value == this.uuid
    {
      match this
      case Uuid(u) => Some(u)
      case Both(u, _) => Some(u)
      case Slack(_) => None
    }

    /** `UserId::slack`. */
    function SlackOf(): (r: Option<string>)
      ensures r.Some? <==> !this.Uuid?
      ensures r.Some? ==> r.value == this.slack
    {
      match this
      case Slack(s) => Some(s)
      case Both(_, s) => Some(s)
      case Uuid(_) => None
    }

    /** `UserId::uuid_or_else`. */
    function UuidOrElse(f: string -> Uuids.Uuid): (r: Uuids.Uuid)
      ensures this.Slack? ==> r == f(this.slack)
      ensures !this.Slack? ==> r == this.uuid
    {
      match this
      case Uuid(u) => u
      case Both(u, _) => u
      case Slack(s) => f(s)
    }
  }

  /** `uuid_or_else` agrees with `uuid` wherever a uuid is stored, and only calls `f` otherwise. */
  lemma UuidOrElseAgrees(u: UserId, f: string -> Uuids.Uuid)
    ensures u.UuidOf().Some? ==> u.UuidOrElse(f) == u.UuidOf().value
    ensures u.UuidOf().None? ==> u.SlackOf().Some? && u.UuidOrElse(f) == f(u.SlackOf().value)
  {
  }

  /** The three unit tests of user_id.rs, for any uuid and the Slack id "U1". */
  lemma Fetching(uuid: Uuids.Uuid)
    ensures Slack("U1").UuidOf() == None && Slack("U1").SlackOf() == Some("U1")
    ensures Uuid(uuid).UuidOf() == Some(uuid) && Uuid(uuid).SlackOf() == None
    ensures Both(uuid, "U1").SlackOf() == Some("U1") && Both(uuid, "U1").UuidOf() == Some(uuid)
  {
  }
}
