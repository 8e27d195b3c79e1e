// How to reach a user (user_contact.rs): an email, a Slack id, or both.
module UserContacts {
  import opened Wrappers

  datatype UserContact = Email(email: string) | Slack(slack: string) | Both(email: string, slack: string)
  {
    /** `UserContact::email`: the email, unless the user is known only by Slack. */
    function EmailOf(): (r: Option<string>)
      ensures r.Some? <==> !this.Slack?
      ensures r.Some? ==> r.value == this.email
    {
      match this
      case Email(s) => Some(s)
      case Both(e, _) => Some(e)
      case Slack(_) => None
    }

    /** `UserContact::slack`: the Slack id, unless the user is known only by email. */
    function SlackOf(): (r: Option<string>)
      ensures r.Some? <==> !this.Email?
      ensures r.Some? ==> r.value == this.slack
    {
      match this
      case Slack(s) => Some(s)
      case Both(_, s) => Some(s)
      case Email(_) => None
    }
  }

  /** Every contact can be reached one way or another. */
  lemma ContactHasOne(c: UserContact)
    ensures c.EmailOf().Some? || c.SlackOf().Some?
  {
  }

  /** The three unit tests of user_contact.rs. */
  lemma Fetching()
    ensures Slack("U1").EmailOf() == None && Slack("U1").SlackOf() == Some("U1")
    ensures Email("U2").EmailOf() == Some("U2") && Email("U2").SlackOf() == None
    ensures Both("U3", "U1").SlackOf() == Some("U1") && Both("U3", "U1").EmailOf() == Some("U3")
  {
  }
}
