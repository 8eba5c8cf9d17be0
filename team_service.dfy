/** The team collaboration service: team records with append-only message and
    file logs, the one-way finalization that propagates to the linked offer,
    and the invite batch. The module-level arrays `mockTeamCollaborations`,
    `mockTeamMessages` and `mockTeamFiles` become the fields of a
    `TeamEngine`, which shares the offer catalogue with the negotiation
    engine. */
module TeamService {
  import opened Wrappers
  import opened Seqs
  import opened Strings
  import opened Types
  import MarketplaceService

  /** `mockTeamCollaborations.find(t => t.id === teamId)`, as a position. */
  function FindTeam(teams: seq<Team>, teamId: nat): Option<nat> {
    FirstIndex(teams, (t: Team) => t.id == teamId)
  }

  /** A team appended with an id above every stored id is the one found
      by that id. */
  lemma FreshTeamFound(teams: seq<Team>, t: Team)
    requires forall i :: 0 <= i < |teams| ==> teams[i].id < t.id
    ensures FindTeam(teams + [t], t.id) == Some(|teams|)
  {
    FirstIndexAppended(teams, t, (u: Team) => u.id == t.id);
  }

  /** `team.participants.find(p => p.userId === userId)`, as a position. */
  function FindParticipant(participants: seq<Participant>, userId: string): Option<nat> {
    FirstIndex(participants, (p: Participant) => p.userId == userId)
  }

  /** `team.participants.some(p => p.userId === userId)`. */
  predicate IsParticipant(t: Team, userId: string) {
    exists i :: 0 <= i < |t.participants| && t.participants[i].userId == userId
  }

  /** Finalization fields are set exactly on finalized teams, and no
      operation of this service reaches `completed` or `cancelled`. */
  predicate WellFormed(t: Team) {
    && (t.status == TeamStatus.Active || t.status == TeamStatus.Finalized)
    && (t.status == TeamStatus.Finalized <==> t.finalizedAt.Some?)
    && (t.status == TeamStatus.Finalized <==> t.finalizedBy.Some?)
    && (t.status == TeamStatus.Finalized <==> t.finalizedReason.Some?)
  }

  function TeamName(title: string): string {
    "Collaboration: " + title
  }

  function WelcomeText(title: string): string {
    "Welcome to the collaboration space for \"" + title
    + "\". You can share files, documents, and coordinate details here."
  }

  /** The name the finalization message gives the finalizing user:
      `participants.find(...)?.name || 'a participant'`, so an unknown user
      and a participant with an empty name both read "a participant". */
  function FinalizerName(participants: seq<Participant>, userId: string): (name: string)
    ensures name != []
    ensures FindParticipant(participants, userId).Some?
            && participants[FindParticipant(participants, userId).value].name != []
            ==> name == participants[FindParticipant(participants, userId).value].name
    ensures !(FindParticipant(participants, userId).Some?
              && participants[FindParticipant(participants, userId).value].name != [])
            ==> name == "a participant"
  {
    match FindParticipant(participants, userId)
    case Some(i) => if participants[i].name != [] then participants[i].name else "a participant"
    case None => "a participant"
  }

  function FinalizedText(name: string, reason: string): string {
    "This collaboration has been finalized by " + name + ". Reason: " + reason
  }

  function InvitedText(inviterName: string, count: nat): string {
    inviterName + " invited " + NatToString(count) + " people to join this team."
  }

  /** The mock download address of a stored file. */
  function FileUrl(fileId: nat): string {
    "https://example.com/files/file-" + NatToString(fileId)
  }

  /** `getTeamById`: a copy of the first team with the id, or null. */
  function GetTeamById(teams: seq<Team>, teamId: nat): (r: Option<Team>)
    ensures r.Some? ==> r.value in teams && r.value.id == teamId
    ensures r.None? <==> forall i :: 0 <= i < |teams| ==> teams[i].id != teamId
  {
    match FindTeam(teams, teamId)
    case None => None
    case Some(i) => Some(teams[i])
  }

  /** `getTeamByOfferId`: a copy of the first team on the offer, or null. */
  function GetTeamByOfferId(teams: seq<Team>, offerId: string): (r: Option<Team>)
    ensures r.Some? ==> r.value in teams && r.value.offerId == offerId
    ensures r.None? <==> forall i :: 0 <= i < |teams| ==> teams[i].offerId != offerId
  {
    match FirstIndex(teams, (t: Team) => t.offerId == offerId)
    case None => None
    case Some(i) => Some(teams[i])
  }

  /** `getUserTeams`: exactly the teams the user participates in, in store
      order. */
  function GetUserTeams(teams: seq<Team>, userId: string): (r: seq<Team>)
    ensures forall i :: 0 <= i < |r| ==> r[i] in teams && IsParticipant(r[i], userId)
    ensures forall i :: 0 <= i < |teams| && IsParticipant(teams[i], userId) ==> teams[i] in r
  {
    Filter(teams, (t: Team) => IsParticipant(t, userId))
  }

  /** The result of `sendTeamInvites`. */
  datatype InviteReceipt = InviteReceipt(success: bool, invitedEmails: seq<string>)

  class TeamEngine {
    const store: MarketplaceService.OfferStore
    var teams: seq<Team>
    var allMessages: seq<TeamMessage>
    var allFiles: seq<TeamFile>
    var nextId: nat

    ghost predicate Valid()
      reads this
    {
      forall i :: 0 <= i < |teams| ==> WellFormed(teams[i]) && teams[i].id < nextId
    }

    /** The stores start empty. */
    constructor (store: MarketplaceService.OfferStore, firstId: nat)
      ensures Valid()
      ensures this.store == store && teams == [] && allMessages == [] && allFiles == []
      ensures nextId == firstId
    {
      this.store := store;
      teams, allMessages, allFiles := [], [], [];
      nextId := firstId;
    }

    /** `createTeamCollaboration`: a new active team on the offer, with the
        offer's owner as carrier and the buyer as its two participants, no
        files, and the system's welcome message as its only message. The
        offer is taken as given; the catalogue is not consulted. */
    method CreateTeamCollaboration(offer: Offer, buyerUserId: string, buyerName: string,
                                   buyerRole: Role, now: Time)
      returns (t: Team)
      requires Valid()
      modifies this
      ensures Valid()
      ensures var id := old(nextId);
        var welcome := TeamMessage(id + 1, id, "system", "System", WelcomeText(offer.title), now, None);
        && t == Team(id, offer.id, TeamName(offer.title),
                     [Participant(offer.userId, offer.contactName, Carrier, now),
                      Participant(buyerUserId, buyerName, buyerRole, now)],
                     [welcome], [], now, now, TeamStatus.Active, None, None, None)
        && teams == old(teams) + [t]
        && allMessages == old(allMessages) + [welcome]
        && FindTeam(teams, id) == Some(|old(teams)|)
      ensures allFiles == old(allFiles) && nextId == old(nextId) + 2
    {
      var teamId := nextId;
      var welcome := TeamMessage(teamId + 1, teamId, "system", "System", WelcomeText(offer.title), now, None);
      nextId := nextId + 2;
      var team := Team(teamId, offer.id, TeamName(offer.title),
                       [Participant(offer.userId, offer.contactName, Carrier, now),
                        Participant(buyerUserId, buyerName, buyerRole, now)],
                       [welcome], [], now, now, TeamStatus.Active, None, None, None);
      allMessages := allMessages + [welcome];
      FreshTeamFound(teams, team);
      teams := teams + [team];
      t := team;
    }

    /** `addTeamMessage`: appends one message to the team's log and to the
        global log. Only a missing team fails: a finalized team still takes
        messages. */
    method AddTeamMessage(teamId: nat, userId: string, userName: string, content: string,
                          attachments: Option<seq<TeamFile>>, now: Time)
      returns (r: Result<TeamMessage, Error>)
      requires Valid()
      modifies this
      ensures Valid()
      ensures r.Failure? <==> FindTeam(old(teams), teamId).None?
      ensures r.Failure? ==>
        r.error == TeamNotFound(teamId) && teams == old(teams) && allMessages == old(allMessages)
        && nextId == old(nextId)
      ensures r.Success? ==>
        var k := FindTeam(old(teams), teamId).value;
        var t := old(teams)[k];
        && r.value == TeamMessage(old(nextId), teamId, userId, userName, content, now, attachments)
        && teams == old(teams)[k := t.(messages := t.messages + [r.value], updatedAt := now)]
        && allMessages == old(allMessages) + [r.value]
        && nextId == old(nextId) + 1
      ensures allFiles == old(allFiles)
    {
      var k := FindTeam(teams, teamId);
      if k.None? {
        return Failure(TeamNotFound(teamId));
      }
      var team := teams[k.value];
      var message := TeamMessage(nextId, teamId, userId, userName, content, now, attachments);
      nextId := nextId + 1;
      teams := teams[k.value := team.(messages := team.messages + [message], updatedAt := now)];
      allMessages := allMessages + [message];
      r := Success(message);
    }

    /** `uploadTeamFile`: appends one file, uploaded by the caller and
        addressed by its fresh id, to the team's files and the global file
        list. Only a missing team fails. */
    method UploadTeamFile(teamId: nat, userId: string, name: string, fileType: FileType,
                          size: int, description: Option<string>, now: Time)
      returns (r: Result<TeamFile, Error>)
      requires Valid()
      modifies this
      ensures Valid()
      ensures r.Failure? <==> FindTeam(old(teams), teamId).None?
      ensures r.Failure? ==>
        r.error == TeamNotFound(teamId) && teams == old(teams) && allFiles == old(allFiles)
        && nextId == old(nextId)
      ensures r.Success? ==>
        var k := FindTeam(old(teams), teamId).value;
        var t := old(teams)[k];
        var fileId := old(nextId);
        && r.value == TeamFile(fileId, teamId, name, fileType, FileUrl(fileId), userId, now, size, description)
        && teams == old(teams)[k := t.(files := t.files + [r.value], updatedAt := now)]
        && allFiles == old(allFiles) + [r.value]
        && nextId == old(nextId) + 1
      ensures allMessages == old(allMessages)
    {
      var k := FindTeam(teams, teamId);
      if k.None? {
        return Failure(TeamNotFound(teamId));
      }
      var team := teams[k.value];
      var fileId := nextId;
      nextId := nextId + 1;
      var url := FileUrl(fileId);
      var file := TeamFile(fileId, teamId, name, fileType, url, userId, now, size, description);
      teams := teams[k.value := team.(files := team.files + [file], updatedAt := now)];
      allFiles := allFiles + [file];
      r := Success(file);
    }

    /** `finalizeTeam`: the one-way step from `active` to `finalized`. It
        fails, before writing anything, for a missing team and for a team
        that is not active (so a second finalization fails). Otherwise it
        stamps who finalized it, when and why, appends a system message
        naming the finalizer, and marks the linked offer `finalized`. */
    method FinalizeTeam(teamId: nat, userId: string, reason: string, now: Time)
      returns (r: Result<Team, Error>)
      requires Valid()
      modifies this, store
      ensures Valid()
      ensures FindTeam(old(teams), teamId).None? ==> r == Failure(TeamNotFound(teamId))
      ensures FindTeam(old(teams), teamId).Some? ==>
        var t := old(teams)[FindTeam(old(teams), teamId).value];
        (r.Success? <==> t.status == TeamStatus.Active)
        && (r.Failure? ==> r.error == TeamNotActive(t.status))
      ensures r.Failure? ==>
        teams == old(teams) && allMessages == old(allMessages) && store.offers == old(store.offers)
        && nextId == old(nextId)
      ensures r.Success? ==>
        var k := FindTeam(old(teams), teamId).value;
        var t := old(teams)[k];
        var m := TeamMessage(old(nextId), teamId, "system", "System",
                             FinalizedText(FinalizerName(t.participants, userId), reason), now, None);
        && r.value == t.(status := TeamStatus.Finalized, finalizedAt := Some(now), finalizedBy := Some(userId),
                         finalizedReason := Some(reason), updatedAt := now, messages := t.messages + [m])
        && teams == old(teams)[k := r.value]
        && allMessages == old(allMessages) + [m]
        && nextId == old(nextId) + 1
        && store.offers == MarketplaceService.WithStatus(old(store.offers), t.offerId, OfferStatus.Finalized, now)
      ensures allFiles == old(allFiles)
    {
      var k := FindTeam(teams, teamId);
      if k.None? {
        return Failure(TeamNotFound(teamId));
      }
      var team := teams[k.value];
      if team.status != TeamStatus.Active {
        return Failure(TeamNotActive(team.status));
      }

      team := team.(status := TeamStatus.Finalized, finalizedAt := Some(now), finalizedBy := Some(userId),
                    finalizedReason := Some(reason), updatedAt := now);
      var message := TeamMessage(nextId, teamId, "system", "System",
                                 FinalizedText(FinalizerName(team.participants, userId), reason), now, None);
      nextId := nextId + 1;
      team := team.(messages := team.messages + [message]);
      teams := teams[k.value := team];
      allMessages := allMessages + [message];

      var j := MarketplaceService.FindOffer(store.offers, team.offerId);
      if j.Some? {
        var offer := store.offers[j.value];
        store.offers := store.offers[j.value := offer.(status := OfferStatus.Finalized, updatedAt := now)];
      }
      r := Success(team);
    }

    /** `sendTeamInvites`: only a participant may invite. One system message
        summarises the whole batch, whatever its size, and the receipt
        echoes the list. The team's status is not checked. */
    method SendTeamInvites(teamId: nat, inviterUserId: string, emails: seq<string>, role: Role,
                           message: string, now: Time)
      returns (r: Result<InviteReceipt, Error>)
      requires Valid()
      modifies this
      ensures Valid()
      ensures FindTeam(old(teams), teamId).None? ==> r == Failure(TeamNotFound(teamId))
      ensures FindTeam(old(teams), teamId).Some? ==>
        var t := old(teams)[FindTeam(old(teams), teamId).value];
        (r.Success? <==> IsParticipant(t, inviterUserId))
        && (r.Failure? ==> r.error == InviterNotParticipant)
      ensures r.Failure? ==> teams == old(teams) && allMessages == old(allMessages) && nextId == old(nextId)
      ensures r.Success? ==>
        var k := FindTeam(old(teams), teamId).value;
        var t := old(teams)[k];
        var inviter := t.participants[FindParticipant(t.participants, inviterUserId).value];
        var m := TeamMessage(old(nextId), teamId, "system", "System", InvitedText(inviter.name, |emails|), now, None);
        && r.value == InviteReceipt(true, emails)
        && teams == old(teams)[k := t.(messages := t.messages + [m])]
        && allMessages == old(allMessages) + [m]
        && nextId == old(nextId) + 1
      ensures allFiles == old(allFiles)
    {
      var k := FindTeam(teams, teamId);
      if k.None? {
        return Failure(TeamNotFound(teamId));
      }
      var team := teams[k.value];
      var p := FindParticipant(team.participants, inviterUserId);
      if p.None? {
        return Failure(InviterNotParticipant);
      }
      var inviter := team.participants[p.value];
      var m := TeamMessage(nextId, teamId, "system", "System", InvitedText(inviter.name, |emails|), now, None);
      nextId := nextId + 1;
      teams := teams[k.value := team.(messages := team.messages + [m])];
      allMessages := allMessages + [m];
      r := Success(InviteReceipt(true, emails));
    }
  }
}
