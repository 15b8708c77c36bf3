/** The owner's staff screen: the business's other accounts split into
    pending requests and active staff, and the only status changes the
    application offers anywhere. */
module StaffManagement {
  import opened Base
  import opened Types
  import opened MockDb

  function IsStaffOf(me: User): User -> bool
  {
    (u: User) => u.businessName == me.businessName && u.uid != me.uid
  }

  /** The list the screen shows: the accounts of the same business (exact
      name) other than the viewer's own, in stored order. */
  function StaffOf(all: seq<User>, me: User): (r: seq<User>)
    ensures forall i :: 0 <= i < |r| ==> r[i] in all && r[i].businessName == me.businessName && r[i].uid != me.uid
    ensures forall i :: 0 <= i < |all| && all[i].businessName == me.businessName && all[i].uid != me.uid
              ==> all[i] in r
  {
    Filter(all, IsStaffOf(me))
  }

  function HasStatus(s: Status): User -> bool
  {
    (u: User) => u.status == s
  }

  /** The "Pending Requests" list: exactly the pending accounts, in order. */
  function PendingUsers(users: seq<User>): (r: seq<User>)
    ensures forall i :: 0 <= i < |r| ==> r[i] in users && r[i].status == Pending
    ensures forall i :: 0 <= i < |users| && users[i].status == Pending ==> users[i] in r
  {
    Filter(users, HasStatus(Pending))
  }

  /** The "Team Members" list: exactly the approved accounts, in order. */
  function ApprovedUsers(users: seq<User>): (r: seq<User>)
    ensures forall i :: 0 <= i < |r| ==> r[i] in users && r[i].status == Approved
    ensures forall i :: 0 <= i < |users| && users[i].status == Approved ==> users[i] in r
  {
    Filter(users, HasStatus(Approved))
  }

  /** The two lists share no account, hold only accounts of `users`, and a
      rejected account is in neither. */
  lemma PartitionDisjoint(users: seq<User>)
    ensures forall i, j :: 0 <= i < |PendingUsers(users)| && 0 <= j < |ApprovedUsers(users)|
              ==> PendingUsers(users)[i] != ApprovedUsers(users)[j]
    ensures forall i :: 0 <= i < |PendingUsers(users)| ==>
              (PendingUsers(users)[i] in users && PendingUsers(users)[i].status == Pending)
    ensures forall i :: 0 <= i < |ApprovedUsers(users)| ==>
              (ApprovedUsers(users)[i] in users && ApprovedUsers(users)[i].status == Approved)
    ensures forall i :: 0 <= i < |users| && users[i].status != Rejected ==>
              users[i] in PendingUsers(users) || users[i] in ApprovedUsers(users)
  {
  }

  /** Every account lands in exactly one of the three status lists. */
  lemma {:induction false} PartitionCounts(users: seq<User>)
    ensures |PendingUsers(users)| + |ApprovedUsers(users)| + |Filter(users, HasStatus(Rejected))| == |users|
  {
    if users != [] {
      PartitionCounts(users[1..]);
    }
  }

  /** The buttons on a row: a pending request can be approved or declined;
      an active account can be removed; a rejected one is not listed. */
  function RowActions(s: Status): (r: seq<Status>)
    ensures Pending !in r
    ensures s == Rejected <==> r == []
  {
    match s
    case Pending => [Approved, Rejected]
    case Approved => [Rejected]
    case Rejected => []
  }

  function Rank(s: Status): nat
  {
    match s
    case Pending => 0
    case Approved => 1
    case Rejected => 2
  }

  /** Every offered change moves forward, from pending through approved to
      rejected, so an account changes status at most twice from this
      screen and never returns to pending or leaves rejected. */
  lemma ActionsMoveForward(from: Status, to: Status)
    requires to in RowActions(from)
    ensures Rank(from) < Rank(to)
    ensures to != Pending && from != Rejected
  {
  }

  class StaffPanel {
    const me: User
    const db: Store
    var users: seq<User>

    /** Every listed account belongs to the viewer's business and is not the
        viewer's own. */
    ghost predicate Valid()
      reads this, db
    {
      db.Valid()
      && forall i :: 0 <= i < |users| ==> users[i].businessName == me.businessName && users[i].uid != me.uid
    }

    /** The load effect. */
    constructor (me: User, db: Store)
      requires db.Valid()
      ensures Valid()
      ensures this.me == me && this.db == db
      ensures users == StaffOf(db.users, me)
    {
      this.me := me;
      this.db := db;
      users := StaffOf(db.users, me);
    }

    /** `handleStatusChange`: one of the row's buttons was pressed. The store
        writes the status, and the list is read again with the same filter. */
    method HandleStatusChange(uid: string, status: Status)
      requires Valid()
      requires exists i :: 0 <= i < |users| && users[i].uid == uid && status in RowActions(users[i].status)
      modifies db`users, db`session, this`users
      ensures Valid()
      ensures db.users == UpdateStatus(old(db.users), uid, status)
      ensures db.session == SessionAfterStatus(old(db.session), old(db.users), uid, status)
      ensures users == StaffOf(db.users, me)
      ensures old(db.session).Some? && old(db.session).value.uid == me.uid ==> db.session == old(db.session)
    {
      db.UpdateUserStatus(uid, status);
      users := StaffOf(db.users, me);
    }
  }
}
