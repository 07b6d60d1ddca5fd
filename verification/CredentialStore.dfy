/** Several Agent processes sharing one credential file under a file lock, against a
    server that rotates refresh tokens, treats a used one as a sign of theft, and may fail
    to save what it does and start again from its own file. */
module CredentialStore {
  import opened Wrappers

  // ------------------------------------------------------------------- server

  /** The server's refresh tokens with their families: those that are live, and those rotated. */
  datatype Tables = Tables(live: map<string, string>, used: map<string, string>)

  /** What the server holds in memory, how often a used token was presented, whether it doubts
      its own file, and what a start may find in that file. `RelayAgents` shows that the Relay's
      exchanges do this to its tokens. */
  datatype Server = Server(now: Tables, replays: nat, doubt: bool, files: set<Tables>)

  /** How a save ends. A save that fails halfway has written its file. */
  datatype Ending = Stored | Unwritten | Halfway

  const NoTables := Tables(map[], map[])

  function WithoutFamily(m: map<string, string>, family: string): map<string, string> {
    map t | t in m && m[t] != family :: m[t]
  }

  function EndFamily(t: Tables, family: string): Tables {
    Tables(WithoutFamily(t.live, family), WithoutFamily(t.used, family))
  }

  function Rotated(t: Tables, token: string, successor: string): Tables
    requires token in t.live
  {
    Tables((t.live - {token})[successor := t.live[token]], t.used[token := t.live[token]])
  }

  /** A save of `t`; if it does not succeed, memory is left with `kept`. A server in doubt of its file writes nothing. */
  function Saving(s: Server, t: Tables, kept: Tables, end: Ending): Server {
    if s.doubt then s.(now := kept)
    else
      match end
      case Stored => s.(now := t, files := {t})
      case Unwritten => s.(now := kept, doubt := true)
      case Halfway => s.(now := kept, doubt := true, files := s.files + {t})
  }

  /** The save of a recovery, which is the one thing a server in doubt may write. */
  function Recovering(s: Server, end: Ending): Server {
    match end
    case Stored => s.(files := {s.now})
    case Unwritten => s
    case Halfway => s.(files := s.files + {s.now})
  }

  /** A refresh that is refused: a used token ends its family, and a server in doubt drops a live one. */
  function Refused(s: Server, token: string, end: Ending): Server {
    if token in s.now.live then s.(now := s.now.(live := s.now.live - {token}))
    else if token in s.now.used then
      var dead := EndFamily(s.now, s.now.used[token]);
      Saving(s, dead, dead, end).(replays := s.replays + 1)
    else s
  }

  // -------------------------------------------------------------------- agents

  datatype Credential = Credential(client: string, access: string, refresh: string)

  type Profiles = map<string, Credential>

  /** What a process wants the lock for. */
  datatype Purpose = GetToken | StoreLogin(login: Credential) | Delete

  /** Where a process is. From `Locked` to `Done` it holds the lock. */
  datatype Place =
    | Idle
    | Browsing(resource: string)
    | Waiting(resource: string, purpose: Purpose)
    | Locked(resource: string, purpose: Purpose)
    | Loaded(resource: string, purpose: Purpose, store: Profiles)
    | Asking(resource: string, store: Profiles)
    | Answered(resource: string, store: Profiles, renewed: Credential)
    | Denied(resource: string, store: Profiles)
    | Done

  datatype World = World(server: Server, file: Profiles, places: map<nat, Place>, holder: Option<nat>, drawn: set<string>)

  /** One thing that happens. An answer may get lost, a save may fail on either side, and the
      server may end and start again from any file it may find. */
  datatype Step =
    | Want(agent: nat, resource: string, delete: bool)
    | Acquire(agent: nat)
    | Load(agent: nat)
    | UseCached(agent: nat)
    | AskRefresh(agent: nat)
    | AskBrowser(agent: nat)
    | Answer(agent: nat, access: string, refresh: string)
    | FailRotation(agent: nat, refresh: string, end: Ending)
    | Refuse(agent: nat, end: Ending)
    | FailTransport(agent: nat)
    | LoseAnswer(agent: nat, refresh: string)
    | Authorize(agent: nat, client: string, access: string, refresh: string, family: string)
    | BeginLogin(agent: nat, resource: string)
    | FinishLogin(agent: nat, client: string, access: string, refresh: string, family: string)
    | FailGrant(agent: nat, refresh: string, family: string, end: Ending)
    | GiveUp(agent: nat)
    | Save(agent: nat)
    | FailSave(agent: nat)
    | Release(agent: nat)
    | Revoke(family: string, end: Ending)
    | Expire(token: string)
    | OtherSave(end: Ending)
    | Recover(end: Ending)
    | Restart(found: Tables, doubt: bool)

  predicate Inside(p: Place) {
    p.Locked? || p.Loaded? || p.Asking? || p.Answered? || p.Denied? || p.Done?
  }

  predicate At(w: World, i: nat) {
    i in w.places
  }

  predicate HasRefresh(store: Profiles, resource: string) {
    resource in store && store[resource].refresh != "" && store[resource].client != ""
  }

  /** A login ready to be stored, or a deletion to be carried out. */
  predicate Editing(p: Place) {
    p.Loaded? && !p.purpose.GetToken?
  }

  /** The store a process is about to write. */
  function Edited(p: Place): Profiles
    requires p.Answered? || Editing(p)
  {
    match p
    case Answered(r, store, renewed) => store[r := renewed]
    case Loaded(r, StoreLogin(login), store) => store[r := login]
    case Loaded(r, _, store) => store - {r}
  }

  predicate IsNew(w: World, t: string) {
    t !in w.drawn && t != ""
  }

  /** The server counts the token as used, or will once it has started from some file it may find. */
  ghost predicate Spent(s: Server, t: string) {
    t in s.now.used || exists f :: f in s.files && t in f.used
  }

  /** What the protocol cannot survive: a lost answer, a rotation that the server answers with
      an error although it is in its file, and a save that fails while the credential file still
      holds a token that has been rotated; a process that ends before it has stored its answer
      is one whose save failed. A failed save of a login, of a deletion or of a new authorization
      does no harm. */
  ghost predicate Mishap(w: World, step: Step) {
    match step
    case LoseAnswer(_, _) => true
    case FailRotation(_, _, end) => end.Halfway?
    case FailSave(i) =>
      At(w, i) && w.places[i].Answered? && HasRefresh(w.file, w.places[i].resource) && Spent(w.server, w.file[w.places[i].resource].refresh)
    case _ => false
  }

  /** The process asks for a new token with one the server would rotate. */
  predicate Rotates(w: World, i: nat, refresh: string) {
    At(w, i) && w.places[i].Asking? && HasRefresh(w.places[i].store, w.places[i].resource) && IsNew(w, refresh) &&
    w.places[i].store[w.places[i].resource].refresh in w.server.now.live && !w.server.doubt
  }

  /** Whether a step can be taken. Without the lock, processes enter as they please. */
  predicate Enabled(w: World, locking: bool, step: Step) {
    match step
    case Want(i, _, _) => At(w, i) && w.places[i].Idle?
    case Acquire(i) => At(w, i) && w.places[i].Waiting? && (locking ==> w.holder.None?)
    case Load(i) => At(w, i) && w.places[i].Locked?
    case UseCached(i) => At(w, i) && w.places[i].Loaded? && w.places[i].purpose.GetToken?
    case AskRefresh(i) => At(w, i) && w.places[i].Loaded? && w.places[i].purpose.GetToken? && HasRefresh(w.places[i].store, w.places[i].resource)
    case AskBrowser(i) => At(w, i) && w.places[i].Loaded? && w.places[i].purpose.GetToken?
    case Answer(i, _, refresh) => Rotates(w, i, refresh)
    case FailRotation(i, refresh, end) => Rotates(w, i, refresh) && !end.Stored?
    case Refuse(i, _) =>
      At(w, i) && w.places[i].Asking? && HasRefresh(w.places[i].store, w.places[i].resource) &&
      (w.places[i].store[w.places[i].resource].refresh !in w.server.now.live || w.server.doubt)
    case FailTransport(i) => At(w, i) && w.places[i].Asking?
    case LoseAnswer(i, refresh) => Rotates(w, i, refresh)
    case Authorize(i, _, _, refresh, family) => At(w, i) && w.places[i].Denied? && IsNew(w, refresh) && IsNew(w, family) && !w.server.doubt
    case BeginLogin(i, _) => At(w, i) && w.places[i].Idle?
    case FinishLogin(i, _, _, refresh, family) =>
      At(w, i) && w.places[i].Browsing? && IsNew(w, refresh) && IsNew(w, family) && !w.server.doubt
    case FailGrant(i, refresh, family, end) =>
      At(w, i) && (w.places[i].Denied? || w.places[i].Browsing?) && IsNew(w, refresh) && IsNew(w, family) && !w.server.doubt && !end.Stored?
    case GiveUp(i) => At(w, i) && (w.places[i].Denied? || w.places[i].Browsing?)
    case Save(i) => At(w, i) && (w.places[i].Answered? || Editing(w.places[i]))
    case FailSave(i) => At(w, i) && (w.places[i].Answered? || Editing(w.places[i]))
    case Release(i) => At(w, i) && w.places[i].Done?
    case Restart(found, _) => found in w.server.files
    case _ => true
  }

  function Go(w: World, i: nat, p: Place): World {
    w.(places := w.places[i := p])
  }

  function Asked(p: Place): string
    requires p.Asking? && HasRefresh(p.store, p.resource)
  {
    p.store[p.resource].refresh
  }

  function Next(w: World, locking: bool, step: Step): World
    requires Enabled(w, locking, step)
  {
    match step
    case Want(i, r, delete) => Go(w, i, Waiting(r, if delete then Delete else GetToken))
    case Acquire(i) => Go(w, i, Locked(w.places[i].resource, w.places[i].purpose)).(holder := Some(i))
    case Load(i) => Go(w, i, Loaded(w.places[i].resource, w.places[i].purpose, w.file))
    case UseCached(i) => Go(w, i, Done)
    case AskRefresh(i) => Go(w, i, Asking(w.places[i].resource, w.places[i].store))
    case AskBrowser(i) => Go(w, i, Denied(w.places[i].resource, w.places[i].store))
    case Answer(i, access, refresh) =>
      var p := w.places[i];
      Go(w, i, Answered(p.resource, p.store, p.store[p.resource].(access := access, refresh := refresh)))
        .(server := Rotating(w, i, refresh, Stored), drawn := w.drawn + {refresh})
    case FailRotation(i, refresh, end) =>
      Go(w, i, Done).(server := Rotating(w, i, refresh, end), drawn := w.drawn + {refresh})
    case Refuse(i, end) =>
      var p := w.places[i];
      Go(w, i, Denied(p.resource, p.store)).(server := Refused(w.server, Asked(p), end))
    case FailTransport(i) => Go(w, i, Done)
    case LoseAnswer(i, refresh) =>
      Go(w, i, Done).(server := Rotating(w, i, refresh, Stored), drawn := w.drawn + {refresh})
    case Authorize(i, client, access, refresh, family) =>
      var p := w.places[i];
      Go(w, i, Answered(p.resource, p.store, Credential(client, access, refresh)))
        .(server := Granting(w.server, refresh, family, Stored), drawn := w.drawn + {refresh, family})
    case BeginLogin(i, r) => Go(w, i, Browsing(r))
    case FinishLogin(i, client, access, refresh, family) =>
      Go(w, i, Waiting(w.places[i].resource, StoreLogin(Credential(client, access, refresh))))
        .(server := Granting(w.server, refresh, family, Stored), drawn := w.drawn + {refresh, family})
    case FailGrant(i, refresh, family, end) =>
      Go(w, i, if w.places[i].Denied? then Done else Idle)
        .(server := Granting(w.server, refresh, family, end), drawn := w.drawn + {refresh, family})
    case GiveUp(i) => Go(w, i, if w.places[i].Denied? then Done else Idle)
    case Save(i) => Go(w, i, Done).(file := Edited(w.places[i]))
    case FailSave(i) => Go(w, i, Done)
    case Release(i) => Go(w, i, Idle).(holder := None)
    case Revoke(family, end) => w.(server := Saving(w.server, EndFamily(w.server.now, family), EndFamily(w.server.now, family), end))
    case Expire(t) => w.(server := w.server.(now := Tables(w.server.now.live - {t}, w.server.now.used - {t})))
    case OtherSave(end) => w.(server := Saving(w.server, w.server.now, w.server.now, end))
    case Recover(end) => w.(server := Recovering(w.server, end))
    case Restart(found, doubt) => w.(server := w.server.(now := found, doubt := doubt))
  }

  /** The rotation the process asks for, saved or taken back in memory. */
  function Rotating(w: World, i: nat, refresh: string, end: Ending): Server
    requires Rotates(w, i, refresh)
  {
    Saving(w.server, Rotated(w.server.now, Asked(w.places[i]), refresh), w.server.now, end)
  }

  /** A new grant, saved or taken back in memory. */
  function Granting(s: Server, refresh: string, family: string, end: Ending): Server {
    Saving(s, s.now.(live := s.now.live[refresh := family]), s.now, end)
  }

  // ---------------------------------------------------------------- invariant

  /** The resource whose token the process has already had rotated, though the file still holds the old one. */
  predicate Stale(p: Place, r: string) {
    p.Answered? && p.resource == r
  }

  /** The credential a process carries that is not in the file yet. */
  predicate Carries(p: Place, t: string) {
    (p.Answered? && p.renewed.refresh == t) ||
    (p.Waiting? && p.purpose.StoreLogin? && p.purpose.login.refresh == t) ||
    (p.Locked? && p.purpose.StoreLogin? && p.purpose.login.refresh == t) ||
    (p.Loaded? && p.purpose.StoreLogin? && p.purpose.login.refresh == t)
  }

  /** At most one process is inside, it holds the lock, and what it has loaded is the file. */
  ghost predicate Exclusive(w: World) {
    (forall i :: i in w.places && Inside(w.places[i]) ==> w.holder == Some(i)) &&
    (forall i :: i in w.places && HoldsStore(w.places[i]) ==> w.places[i].store == w.file)
  }

  predicate HoldsStore(p: Place) {
    p.Loaded? || p.Asking? || p.Answered? || p.Denied?
  }

  predicate Outdated(w: World, r: string) {
    w.holder.Some? && w.holder.value in w.places && Stale(w.places[w.holder.value], r)
  }

  /** No token in the credential file is a used one, in the server's memory or in its file,
      save that of the resource being rotated. */
  ghost predicate FileUnused(w: World) {
    forall r :: HasRefresh(w.file, r) && !Outdated(w, r) ==> !Spent(w.server, w.file[r].refresh)
  }

  /** No token is in two entries of the file, or in an entry and a process's hands. */
  ghost predicate OneEntry(w: World) {
    (forall q, r :: q in w.file && r in w.file && w.file[q].refresh == w.file[r].refresh != "" ==> q == r) &&
    (forall i, r, t :: i in w.places && Carries(w.places[i], t) && r in w.file ==> w.file[r].refresh != t)
  }

  ghost predicate OneHolder(w: World) {
    forall i, j, t :: i in w.places && j in w.places && Carries(w.places[i], t) && Carries(w.places[j], t) ==> i == j
  }

  ghost predicate CarriedUnspent(w: World) {
    forall i, t {:trigger Carries(w.places[i], t)} :: i in w.places && Carries(w.places[i], t) ==> !Spent(w.server, t) && t != ""
  }

  /** Every token is in one place only: one entry of the file, or one process's hands. */
  ghost predicate OnePlace(w: World) {
    OneEntry(w) && OneHolder(w) && CarriedUnspent(w)
  }

  ghost predicate TablesOk(t: Tables, drawn: set<string>) {
    t.live.Keys <= drawn && t.used.Keys <= drawn && t.live.Keys !! t.used.Keys
  }

  ghost predicate AllDrawn(w: World) {
    (forall r :: r in w.file ==> w.file[r].refresh == "" || w.file[r].refresh in w.drawn) &&
    (forall i, t :: i in w.places && Carries(w.places[i], t) ==> t in w.drawn) && ServerOk(w.server, w.drawn)
  }

  ghost predicate ServerOk(s: Server, drawn: set<string>) {
    TablesOk(s.now, drawn) && forall f :: f in s.files ==> TablesOk(f, drawn)
  }

  ghost predicate Orderly(w: World) {
    Exclusive(w) && FileUnused(w) && OnePlace(w) && AllDrawn(w)
  }

  /** Any number of processes, all idle, with an empty file, and a server that has granted nothing. */
  ghost predicate Initial(w: World) {
    (forall i :: i in w.places ==> w.places[i].Idle?) && w.holder.None? && w.file == map[] &&
    w.server == Server(NoTables, 0, false, {NoTables})
  }

  lemma InitialIsOrderly(w: World)
    requires Initial(w)
    ensures Orderly(w)
  {
  }

  lemma StepHolder(w: World, step: Step, i: nat)
    requires Exclusive(w) && Enabled(w, true, step)
    requires i in Next(w, true, step).places && Inside(Next(w, true, step).places[i])
    ensures Next(w, true, step).holder == Some(i)
  {
    hide Saving, Refused, Recovering, Rotating, Granting, EndFamily, HoldsStore;
  }

  lemma StepStore(w: World, step: Step, i: nat)
    requires Exclusive(w) && Enabled(w, true, step)
    requires i in Next(w, true, step).places && HoldsStore(Next(w, true, step).places[i])
    ensures Next(w, true, step).places[i].store == Next(w, true, step).file
  {
    hide Saving, Refused, Recovering, Rotating, Granting, EndFamily;
  }

  lemma StepExclusive(w: World, step: Step)
    requires Exclusive(w) && Enabled(w, true, step)
    ensures Exclusive(Next(w, true, step))
  {
    var n := Next(w, true, step);
    hide Next, Enabled;
    forall i | i in n.places && Inside(n.places[i]) ensures n.holder == Some(i) { StepHolder(w, step, i); }
    forall i | i in n.places && HoldsStore(n.places[i]) ensures n.places[i].store == n.file { StepStore(w, step, i); }
  }

  lemma SavingSpends(s: Server, u: Tables, kept: Tables, end: Ending, t: string)
    requires Spent(Saving(s, u, kept, end), t)
    ensures Spent(s, t) || t in kept.used || (t in u.used && !end.Unwritten?)
  {
  }

  /** The step asks the server to rotate the process's token, and the rotation gets into the server's file. */
  predicate RotatesOnFile(step: Step) {
    step.Answer? || step.LoseAnswer? || (step.FailRotation? && step.end.Halfway?)
  }

  /** Only such a step adds to the used tokens, and what it adds is the one it presents. */
  lemma SpentBefore(w: World, step: Step, t: string)
    requires Enabled(w, true, step) && Spent(Next(w, true, step).server, t) && !Spent(w.server, t)
    ensures RotatesOnFile(step) && At(w, step.agent) && w.places[step.agent].Asking? &&
            HasRefresh(w.places[step.agent].store, w.places[step.agent].resource) && t == Asked(w.places[step.agent])
  {
    var s := w.server;
    hide Saving;
    match step {
      case Answer(i, _, refresh) => SavingSpends(s, Rotated(s.now, Asked(w.places[i]), refresh), s.now, Stored, t);
      case LoseAnswer(i, refresh) => SavingSpends(s, Rotated(s.now, Asked(w.places[i]), refresh), s.now, Stored, t);
      case FailRotation(i, refresh, end) => SavingSpends(s, Rotated(s.now, Asked(w.places[i]), refresh), s.now, end, t);
      case Refuse(i, end) => RefusedSpends(s, Asked(w.places[i]), end, t);
      case Authorize(_, _, _, refresh, family) => SavingSpends(s, s.now.(live := s.now.live[refresh := family]), s.now, Stored, t);
      case FinishLogin(_, _, _, refresh, family) => SavingSpends(s, s.now.(live := s.now.live[refresh := family]), s.now, Stored, t);
      case FailGrant(_, refresh, family, end) => SavingSpends(s, s.now.(live := s.now.live[refresh := family]), s.now, end, t);
      case Revoke(family, end) => SavingSpends(s, EndFamily(s.now, family), EndFamily(s.now, family), end, t);
      case OtherSave(end) => SavingSpends(s, s.now, s.now, end, t);
      case _ =>
    }
  }

  lemma RefusedSpends(s: Server, token: string, end: Ending, t: string)
    requires Spent(Refused(s, token, end), t)
    ensures Spent(s, t)
  {
    if token !in s.now.live && token in s.now.used {
      var dead := EndFamily(s.now, s.now.used[token]);
      SavingSpends(s, dead, dead, end, t);
    }
  }

  /** A place in which a rotated token waits to be stored changes only by storing it, or failing to. */
  lemma StaleBefore(w: World, step: Step, r: string)
    requires Exclusive(w) && Enabled(w, true, step) && Outdated(w, r) && !Outdated(Next(w, true, step), r)
    ensures (step.Save? || step.FailSave?) && w.holder == Some(step.agent) && w.places[step.agent].Answered? && w.places[step.agent].resource == r
  {
  }

  lemma StepFile(w: World, step: Step)
    requires Exclusive(w) && FileUnused(w) && OnePlace(w) && AllDrawn(w) && Enabled(w, true, step) && !Mishap(w, step)
    ensures FileUnused(Next(w, true, step))
  {
    var n := Next(w, true, step);
    forall r | HasRefresh(n.file, r) && !Outdated(n, r) ensures !Spent(n.server, n.file[r].refresh) {
      FileBefore(w, step, r);
      StepUnused(w, step, r);
    }
  }

  lemma StepUnused(w: World, step: Step, r: string)
    requires Exclusive(w) && FileUnused(w) && OnePlace(w) && Enabled(w, true, step) && !Mishap(w, step)
    requires HasRefresh(Next(w, true, step).file, r) && !Outdated(Next(w, true, step), r)
    ensures !Spent(Next(w, true, step).server, Next(w, true, step).file[r].refresh)
  {
    var n := Next(w, true, step);
    var t := n.file[r].refresh;
    FileBefore(w, step, r);
    if Spent(n.server, t) {
      if !Spent(w.server, t) {
        SpentBefore(w, step, t);
        AsksFromFile(w, step, r);
      } else if r in w.file && n.file[r] == w.file[r] {
        assert HasRefresh(w.file, r);
        StaleBefore(w, step, r);
        if step.Save? {
          NotCarried(w, step.agent, t);
        }
      } else {
        NotCarried(w, step.agent, t);
      }
    }
  }

  lemma NotCarried(w: World, i: nat, t: string)
    requires CarriedUnspent(w) && At(w, i) && Spent(w.server, t)
    ensures !Carries(w.places[i], t)
  {
  }

  /** The token a rotating step presents is in the file under its own resource only. */
  lemma AsksFromFile(w: World, step: Step, r: string)
    requires Exclusive(w) && OnePlace(w) && Enabled(w, true, step) && RotatesOnFile(step) && r in Next(w, true, step).file
    requires Next(w, true, step).file[r].refresh == Asked(w.places[step.agent])
    ensures !Mishap(w, step) ==> Outdated(Next(w, true, step), r)
  {
    var p := w.places[step.agent];
    assert p.store == w.file && w.holder == Some(step.agent);
    assert w.file[p.resource].refresh == w.file[r].refresh != "";
  }

  /** The step of a process changes its own place only. */
  lemma OwnPlaceOnly(w: World, step: Step, i: nat)
    requires Enabled(w, true, step) && i in Next(w, true, step).places
    ensures i in w.places && (Next(w, true, step).places[i] == w.places[i] || (OfAgent(step) && step.agent == i))
  {
    hide Saving, Refused, Recovering, Rotating, Granting, EndFamily;
  }

  /** The step is one of a process. */
  predicate OfAgent(step: Step) {
    !step.Revoke? && !step.Expire? && !step.OtherSave? && !step.Recover? && !step.Restart?
  }

  /** What a process carries after the step is what it carried before, or a token drawn just now. */
  lemma CarriesBefore(w: World, step: Step, i: nat, t: string)
    requires Enabled(w, true, step) && i in Next(w, true, step).places && Carries(Next(w, true, step).places[i], t)
    ensures i in w.places && (Carries(w.places[i], t) || (t != "" && t !in w.drawn && t in Next(w, true, step).drawn))
  {
    hide Saving, Refused, Recovering, Rotating, Granting, EndFamily;
    if !(OfAgent(step) && step.agent == i) {
      OwnPlaceOnly(w, step, i);
      hide Enabled, Next;
    }
  }

  lemma StepDrawn(w: World, step: Step)
    requires Exclusive(w) && AllDrawn(w) && Enabled(w, true, step)
    ensures AllDrawn(Next(w, true, step))
  {
    var t := Next(w, true, step);
    assert w.drawn <= t.drawn;
    forall i, k | i in t.places && Carries(t.places[i], k) ensures k in t.drawn {
      hide Enabled, Next, Exclusive;
      CarriesBefore(w, step, i, k);
    }
    StepServer(w, step);
  }

  lemma StepServer(w: World, step: Step)
    requires Exclusive(w) && AllDrawn(w) && Enabled(w, true, step)
    ensures var t := Next(w, true, step); ServerOk(t.server, t.drawn)
  {
    var s, n := w.server, Next(w, true, step);
    WiderOk(s, w.drawn, n.drawn);
    hide Saving, Recovering, TablesOk;
    match step {
      case Answer(i, _, refresh) => RotatingOk(w, i, refresh, Stored);
      case LoseAnswer(i, refresh) => RotatingOk(w, i, refresh, Stored);
      case FailRotation(i, refresh, end) => RotatingOk(w, i, refresh, end);
      case Refuse(i, end) => RefusedOk(s, Asked(w.places[i]), end, w.drawn);
      case Authorize(_, _, _, refresh, family) => GrantingOk(s, refresh, family, Stored, w.drawn, n.drawn);
      case FinishLogin(_, _, _, refresh, family) => GrantingOk(s, refresh, family, Stored, w.drawn, n.drawn);
      case FailGrant(_, refresh, family, end) => GrantingOk(s, refresh, family, end, w.drawn, n.drawn);
      case Revoke(family, end) =>
        EndedOk(s.now, family, w.drawn);
        SavingOk(s, EndFamily(s.now, family), EndFamily(s.now, family), end, w.drawn);
      case Expire(t) => ExpiredOk(s.now, t, w.drawn);
      case OtherSave(end) => SavingOk(s, s.now, s.now, end, w.drawn);
      case Recover(end) => RecoveringOk(s, end, w.drawn);
      case _ =>
    }
  }

  lemma WiderOk(s: Server, drawn: set<string>, more: set<string>)
    requires ServerOk(s, drawn) && drawn <= more
    ensures ServerOk(s, more)
  {
  }

  lemma SavingOk(s: Server, u: Tables, kept: Tables, end: Ending, drawn: set<string>)
    requires ServerOk(s, drawn) && TablesOk(u, drawn) && TablesOk(kept, drawn)
    ensures ServerOk(Saving(s, u, kept, end), drawn)
  {
    hide TablesOk;
  }

  lemma RecoveringOk(s: Server, end: Ending, drawn: set<string>)
    requires ServerOk(s, drawn)
    ensures ServerOk(Recovering(s, end), drawn)
  {
    hide TablesOk;
  }

  lemma EndedOk(t: Tables, family: string, drawn: set<string>)
    requires TablesOk(t, drawn)
    ensures TablesOk(EndFamily(t, family), drawn)
  {
  }

  lemma ExpiredOk(t: Tables, token: string, drawn: set<string>)
    requires TablesOk(t, drawn)
    ensures TablesOk(Tables(t.live - {token}, t.used - {token}), drawn) && TablesOk(t.(live := t.live - {token}), drawn)
  {
  }

  lemma RotatingOk(w: World, i: nat, refresh: string, end: Ending)
    requires ServerOk(w.server, w.drawn) && Rotates(w, i, refresh)
    ensures ServerOk(Rotating(w, i, refresh, end), w.drawn + {refresh})
  {
    var s, more := w.server, w.drawn + {refresh};
    WiderOk(s, w.drawn, more);
    assert TablesOk(Rotated(s.now, Asked(w.places[i]), refresh), more);
    SavingOk(s, Rotated(s.now, Asked(w.places[i]), refresh), s.now, end, more);
  }

  lemma GrantingOk(s: Server, refresh: string, family: string, end: Ending, drawn: set<string>, more: set<string>)
    requires ServerOk(s, drawn) && refresh !in drawn && more == drawn + {refresh, family}
    ensures ServerOk(Granting(s, refresh, family, end), more)
  {
    WiderOk(s, drawn, more);
    SavingOk(s, s.now.(live := s.now.live[refresh := family]), s.now, end, more);
  }

  lemma RefusedOk(s: Server, token: string, end: Ending, drawn: set<string>)
    requires ServerOk(s, drawn)
    ensures ServerOk(Refused(s, token, end), drawn)
  {
    ExpiredOk(s.now, token, drawn);
    if token !in s.now.live && token in s.now.used {
      var dead := EndFamily(s.now, s.now.used[token]);
      EndedOk(s.now, s.now.used[token], drawn);
      SavingOk(s, dead, dead, end, drawn);
    }
  }

  /** Only a process's own request moves a token to the used ones, and that token was the file's. */
  lemma UsedBefore(w: World, step: Step, t: string)
    requires Exclusive(w) && Enabled(w, true, step) && Spent(Next(w, true, step).server, t) && !Spent(w.server, t)
    ensures exists r :: r in w.file && w.file[r].refresh == t
  {
    SpentBefore(w, step, t);
    var p := w.places[step.agent];
    assert p.resource in w.file;
  }

  lemma FileBefore(w: World, step: Step, r: string)
    requires Exclusive(w) && Enabled(w, true, step) && r in Next(w, true, step).file
    ensures (r in w.file && Next(w, true, step).file[r] == w.file[r]) ||
            (step.Save? && r == w.places[step.agent].resource && Carries(w.places[step.agent], Next(w, true, step).file[r].refresh) &&
             forall t :: !Carries(Next(w, true, step).places[step.agent], t))
  {
  }

  lemma NewIsUnspent(w: World, t: string)
    requires AllDrawn(w) && t !in w.drawn
    ensures !Spent(w.server, t)
  {
  }

  lemma StepOneEntry(w: World, step: Step)
    requires Exclusive(w) && OnePlace(w) && AllDrawn(w) && Enabled(w, true, step)
    ensures OneEntry(Next(w, true, step))
  {
    var n := Next(w, true, step);
    forall i, r, t | i in n.places && Carries(n.places[i], t) && r in n.file ensures n.file[r].refresh != t {
      CarriesBefore(w, step, i, t);
      FileBefore(w, step, r);
    }
    forall q, r | q in n.file && r in n.file && n.file[q].refresh == n.file[r].refresh != "" ensures q == r {
      FileBefore(w, step, q);
      FileBefore(w, step, r);
    }
  }

  lemma StepOnePlace(w: World, step: Step)
    requires Exclusive(w) && OnePlace(w) && AllDrawn(w) && Enabled(w, true, step)
    ensures OnePlace(Next(w, true, step))
  {
    var n := Next(w, true, step);
    StepOneEntry(w, step);
    StepUnspent(w, step);
    hide Next, Enabled, Exclusive, Carries, OneEntry, CarriedUnspent, AllDrawn;
    forall i, j, t | i in n.places && j in n.places && Carries(n.places[i], t) && Carries(n.places[j], t) ensures i == j {
      CarriedOnce(w, step, i, j, t);
    }
  }

  lemma StepUnspent(w: World, step: Step)
    requires Exclusive(w) && OnePlace(w) && AllDrawn(w) && Enabled(w, true, step)
    ensures CarriedUnspent(Next(w, true, step))
  {
    var n := Next(w, true, step);
    hide Enabled, Next, Exclusive, OnePlace, AllDrawn;
    forall i, t {:trigger Carries(n.places[i], t)} | i in n.places && Carries(n.places[i], t) ensures !Spent(n.server, t) && t != "" {
      StepCarried(w, step, i, t);
    }
  }

  lemma StepCarried(w: World, step: Step, i: nat, t: string)
    requires Exclusive(w) && OnePlace(w) && AllDrawn(w) && Enabled(w, true, step)
    requires i in Next(w, true, step).places && Carries(Next(w, true, step).places[i], t)
    ensures !Spent(Next(w, true, step).server, t) && t != ""
  {
    CarriesBefore(w, step, i, t);
    if t !in w.drawn { NewIsUnspent(w, t); }
    if Spent(Next(w, true, step).server, t) && !Spent(w.server, t) {
      UsedBefore(w, step, t);
    }
  }

  lemma CarriedOnce(w: World, step: Step, i: nat, j: nat, t: string)
    requires OnePlace(w) && AllDrawn(w) && Enabled(w, true, step)
    requires var n := Next(w, true, step); i in n.places && j in n.places && Carries(n.places[i], t) && Carries(n.places[j], t)
    ensures i == j
  {
    hide Next, Enabled, ServerOk, Spent, OneEntry, CarriedUnspent;
    CarriesBefore(w, step, i, t);
    CarriesBefore(w, step, j, t);
    OwnPlaceOnly(w, step, i);
    OwnPlaceOnly(w, step, j);
  }

  /** With the lock, and without a mishap, order is kept and no step presents a used token. */
  lemma StepIsOrderly(w: World, step: Step)
    requires Orderly(w) && Enabled(w, true, step) && !Mishap(w, step)
    ensures Orderly(Next(w, true, step)) && Next(w, true, step).server.replays == w.server.replays
  {
    StepExclusive(w, step);
    StepDrawn(w, step);
    StepFile(w, step);
    StepOnePlace(w, step);
    hide FileUnused, OnePlace;
    if step.Refuse? {
      AskedIsUnused(w, step.agent) by { assert FileUnused(w); }
    }
  }

  /** The token a process presents is never one the server has already rotated. */
  lemma AskedIsUnused(w: World, i: nat)
    requires Exclusive(w) && FileUnused(w) && At(w, i) && w.places[i].Asking? && HasRefresh(w.places[i].store, w.places[i].resource)
    ensures !Spent(w.server, Asked(w.places[i]))
  {
    var r := w.places[i].resource;
    assert w.file[r] == w.places[i].store[r] && !Outdated(w, r);
  }

  ghost predicate Runs(w: World, locking: bool, steps: seq<Step>, t: World)
    decreases |steps|
  {
    if steps == [] then w == t
    else Enabled(w, locking, steps[0]) && Runs(Next(w, locking, steps[0]), locking, steps[1..], t)
  }

  /** No mishap happens on the way. */
  ghost predicate NoMishaps(w: World, steps: seq<Step>)
    decreases |steps|
  {
    steps == [] || (!Mishap(w, steps[0]) && (Enabled(w, true, steps[0]) ==> NoMishaps(Next(w, true, steps[0]), steps[1..])))
  }

  /** Honest processes never look like thieves: however many share the file and however
      their steps interleave, and however the server fails and starts again, no replay is ever
      detected, provided no answer is lost, no rotation stays on the server's file that was
      answered with an error, and every write of a rotated token succeeds. */
  lemma {:induction false} HonestNeverReplay(w: World, steps: seq<Step>, t: World)
    requires Orderly(w) && Runs(w, true, steps, t) && NoMishaps(w, steps)
    ensures Orderly(t) && t.server.replays == w.server.replays
    decreases |steps|
  {
    hide Orderly, Next, Enabled, Mishap;
    if steps != [] {
      StepIsOrderly(w, steps[0]);
      HonestNeverReplay(Next(w, true, steps[0]), steps[1..], t);
    }
  }

  lemma FromTheStart(w: World, steps: seq<Step>, t: World)
    requires Initial(w) && Runs(w, true, steps, t) && NoMishaps(w, steps)
    ensures t.server.replays == 0
  {
    InitialIsOrderly(w);
    hide Initial, Runs, Orderly, NoMishaps;
    assert w.server.replays == 0 by { InitialHasNoReplay(w); }
    HonestNeverReplay(w, steps, t);
  }

  lemma InitialHasNoReplay(w: World)
    requires Initial(w)
    ensures w.server.replays == 0
  {
  }

  // ---------------------------------------------------------- what the file holds

  /** What a save adds to the file: the renewed credential or the login, or nothing. */
  predicate Puts(p: Place, entry: Option<Credential>) {
    (p.Answered? && entry == Some(p.renewed)) ||
    (p.Loaded? && p.purpose.StoreLogin? && entry == Some(p.purpose.login)) ||
    (p.Loaded? && p.purpose.Delete? && entry.None?)
  }

  function EntryOf(file: Profiles, r: string): Option<Credential> {
    if r in file then Some(file[r]) else None
  }

  /** A save by a process working on the resource. */
  predicate SavesOn(w: World, step: Step, r: string) {
    step.Save? && At(w, step.agent) && (w.places[step.agent].Answered? || w.places[step.agent].Loaded?) && w.places[step.agent].resource == r
  }

  /** A save puts what its process holds under that process's resource, and every entry for any
      other resource is the one it had loaded. */
  lemma SaveIsExact(w: World, locking: bool, i: nat, r: string)
    requires Enabled(w, locking, Save(i))
    ensures var p, after := w.places[i], Next(w, locking, Save(i)).file;
            (p.Answered? || p.Loaded?) && if r == p.resource then Puts(p, EntryOf(after, r)) else EntryOf(after, r) == EntryOf(p.store, r)
  {
  }

  /** With the lock what it had loaded is the file, so no step changes an entry but a save by a
      process working on that resource. */
  lemma OthersKept(w: World, step: Step, r: string)
    requires Exclusive(w) && Enabled(w, true, step) && !SavesOn(w, step, r)
    ensures EntryOf(Next(w, true, step).file, r) == EntryOf(w.file, r)
  {
    hide Saving, Refused, Recovering, Rotating, Granting, EndFamily;
    if step.Save? { SaveIsExact(w, true, step.agent, r); }
  }

  /** No process saves for the resource on the way. */
  ghost predicate NoSaveOn(w: World, steps: seq<Step>, r: string)
    decreases |steps|
  {
    steps == [] || (!SavesOn(w, steps[0], r) && (Enabled(w, true, steps[0]) ==> NoSaveOn(Next(w, true, steps[0]), steps[1..], r)))
  }

  /** Over any run, mishaps included, an entry of the file changes only by a save of a process
      working on that resource: nobody's refresh, login or deletion touches another's credential. */
  lemma {:induction false} EntriesKept(w: World, steps: seq<Step>, t: World, r: string)
    requires Exclusive(w) && Runs(w, true, steps, t) && NoSaveOn(w, steps, r)
    ensures EntryOf(t.file, r) == EntryOf(w.file, r)
    decreases |steps|
  {
    hide Exclusive, Next, Enabled, SavesOn, EntryOf;
    if steps != [] {
      OthersKept(w, steps[0], r);
      StepExclusive(w, steps[0]);
      EntriesKept(Next(w, true, steps[0]), steps[1..], t, r);
    }
  }

  /** A refresh that goes well: the process that asks with a live token of a server that does not
      doubt its file gets an answer, stores it, and the file has exactly the new tokens for its
      resource, the same client, and everything else as it was; the server has the new token
      live in the old one's family and the old one used. */
  lemma RefreshIsStored(w: World, i: nat, access: string, refresh: string)
    requires Exclusive(w) && At(w, i) && w.places[i].Asking? && HasRefresh(w.file, w.places[i].resource) && IsNew(w, refresh)
    requires w.file[w.places[i].resource].refresh in w.server.now.live && !w.server.doubt
    ensures var r := w.places[i].resource;
            exists t :: Runs(w, true, [Answer(i, access, refresh), Save(i), Release(i)], t) && t.holder.None? && At(t, i) && t.places[i].Idle? &&
                        t.file == w.file[r := Credential(w.file[r].client, access, refresh)] &&
                        refresh in t.server.now.live && t.server.now.live[refresh] == w.server.now.live[w.file[r].refresh] &&
                        w.file[r].refresh in t.server.now.used && t.server.files == {t.server.now}
  {
    var r := w.places[i].resource;
    assert w.places[i].store == w.file;
    var a := Next(w, true, Answer(i, access, refresh));
    var b := Next(a, true, Save(i));
    var t := Next(b, true, Release(i));
    assert Enabled(a, true, Save(i)) && Enabled(b, true, Release(i));
    hide Enabled, Next;
    RunsOne(b, true, Release(i));
    RunsMore(a, true, Save(i), [Release(i)], t);
    RunsMore(w, true, Answer(i, access, refresh), [Save(i)] + [Release(i)], t);
    assert [Answer(i, access, refresh)] + ([Save(i)] + [Release(i)]) == [Answer(i, access, refresh), Save(i), Release(i)];
  }

  /** A login or a deletion that goes well changes exactly its own entry. */
  lemma EditIsStored(w: World, i: nat)
    requires At(w, i) && w.places[i].Waiting? && !w.places[i].purpose.GetToken? && w.holder.None?
    ensures var r, purpose := w.places[i].resource, w.places[i].purpose;
            exists t :: Runs(w, true, [Acquire(i), Load(i), Save(i), Release(i)], t) && t.holder.None? && t.server == w.server &&
                        t.file == if purpose.StoreLogin? then w.file[r := purpose.login] else w.file - {r}
  {
    var a := Next(w, true, Acquire(i));
    var b := Next(a, true, Load(i));
    var c := Next(b, true, Save(i));
    var t := Next(c, true, Release(i));
    RunsFour(w, true, [Acquire(i), Load(i), Save(i), Release(i)], a, b, c, t);
  }

  // -------------------------------------------------- the provisos are needed

  predicate UsedIn(t: Tables, token: string) {
    token in t.used && token !in t.live
  }

  /** Presenting a used token is a replay, and ends the family. */
  lemma UsedIsReplay(s: Server, t: string, end: Ending)
    requires UsedIn(s.now, t)
    ensures var n := Refused(s, t, end);
            n.replays == s.replays + 1 && forall k :: (k in n.now.live ==> n.now.live[k] != s.now.used[t]) && (k in n.now.used ==> n.now.used[k] != s.now.used[t])
  {
  }

  /** The credential file holds a token that the server counts as rotated, or will once it has started from its file. */
  ghost predicate Betrayed(w: World, r: string) {
    HasRefresh(w.file, r) && (UsedIn(w.server.now, w.file[r].refresh) || exists f :: f in w.server.files && UsedIn(f, w.file[r].refresh))
  }

  /** A lost answer leaves a used token in the file. */
  lemma LostAnswerLeavesUsed(w: World, i: nat, refresh: string)
    requires Orderly(w) && Enabled(w, true, LoseAnswer(i, refresh))
    ensures var n, r := Next(w, true, LoseAnswer(i, refresh)), w.places[i].resource;
            HasRefresh(n.file, r) && UsedIn(n.server.now, n.file[r].refresh)
  {
    var p := w.places[i];
    assert p.store == w.file && refresh !in w.drawn && Asked(p) in w.drawn;
  }

  /** So does a save that fails right after an answer was received: the file is as it was, its token already rotated. */
  lemma FailedSaveLeavesUsed(w: World, i: nat, access: string, refresh: string)
    requires Orderly(w) && Enabled(w, true, Answer(i, access, refresh))
    ensures var a, r := Next(w, true, Answer(i, access, refresh)), w.places[i].resource;
            Enabled(a, true, FailSave(i)) && Mishap(a, FailSave(i)) &&
            var n := Next(a, true, FailSave(i));
            HasRefresh(n.file, r) && UsedIn(n.server.now, n.file[r].refresh)
  {
    var p := w.places[i];
    assert p.store == w.file && refresh !in w.drawn && Asked(p) in w.drawn;
  }

  /** A rotation whose save fails after the file is written leaves the token live in the server's
      memory and used in its file; the process has its answer, an error, and keeps the token. */
  lemma FailedRotationLeavesUsed(w: World, i: nat, refresh: string)
    requires Orderly(w) && Enabled(w, true, FailRotation(i, refresh, Halfway))
    ensures var n, r, f := Next(w, true, FailRotation(i, refresh, Halfway)), w.places[i].resource, Rotated(w.server.now, Asked(w.places[i]), refresh);
            n.file == w.file && HasRefresh(n.file, r) && n.file[r].refresh in n.server.now.live && f in n.server.files && UsedIn(f, n.file[r].refresh) &&
            At(n, i) && n.places[i].Done? && n.holder == Some(i) && n.server.replays == w.server.replays
  {
    var p := w.places[i];
    assert p.store == w.file && refresh !in w.drawn && Asked(p) in w.drawn;
  }

  lemma RunsOne(w: World, locking: bool, step: Step)
    requires Enabled(w, locking, step)
    ensures Runs(w, locking, [step], Next(w, locking, step))
  {
    hide Enabled, Next;
    assert [step][1..] == [] && Runs(Next(w, locking, step), locking, [], Next(w, locking, step));
  }

  lemma RunsMore(w: World, locking: bool, step: Step, steps: seq<Step>, t: World)
    requires Enabled(w, locking, step) && Runs(Next(w, locking, step), locking, steps, t)
    ensures Runs(w, locking, [step] + steps, t)
  {
    hide Enabled, Next;
    assert ([step] + steps)[1..] == steps;
  }

  /** A mishap leaves a rotated token in the file, and its process done with the lock still in its hands. */
  lemma MishapBetrays(w: World, step: Step)
    requires Orderly(w) && Enabled(w, true, step) && Mishap(w, step)
    ensures var n := Next(w, true, step);
            Betrayed(n, w.places[step.agent].resource) && At(n, step.agent) && n.places[step.agent].Done? && n.holder == Some(step.agent) &&
            n.server.replays == w.server.replays
  {
    var p := w.places[step.agent];
    assert Inside(p) && w.holder == Some(step.agent);
    match step {
      case LoseAnswer(i, refresh) => LostAnswerLeavesUsed(w, i, refresh);
      case FailRotation(i, refresh, end) => FailedRotationLeavesUsed(w, i, refresh);
      case FailSave(i) => SpentIsBetrayed(w, p.resource) by { hide OnePlace, FileUnused, Exclusive; }
    }
    hide Orderly;
  }

  lemma SpentIsBetrayed(w: World, r: string)
    requires ServerOk(w.server, w.drawn) && HasRefresh(w.file, r) && Spent(w.server, w.file[r].refresh)
    ensures Betrayed(w, r)
  {
    if f :| f in w.server.files && w.file[r].refresh in f.used {
      assert UsedIn(f, w.file[r].refresh);
    }
  }

  lemma RunsFour(w: World, locking: bool, steps: seq<Step>, a: World, b: World, c: World, t: World)
    requires |steps| == 4
    requires Enabled(w, locking, steps[0]) && a == Next(w, locking, steps[0]) && Enabled(a, locking, steps[1]) && b == Next(a, locking, steps[1])
    requires Enabled(b, locking, steps[2]) && c == Next(b, locking, steps[2]) && Enabled(c, locking, steps[3]) && t == Next(c, locking, steps[3])
    ensures Runs(w, locking, steps, t)
  {
    hide Enabled, Next;
    assert steps[1..][1..][1..][1..] == [];
    assert Runs(t, locking, [], t);
    assert Runs(c, locking, steps[1..][1..][1..], t);
    assert Runs(b, locking, steps[1..][1..], t);
    assert Runs(a, locking, steps[1..], t);
  }

  /** And with a used token in the file, the next process to refresh that resource is taken
      for a thief, lock or no lock. */
  lemma UsedInFileMeansReplay(w: World, j: nat, r: string)
    requires At(w, j) && w.places[j] == Waiting(r, GetToken) && w.holder.None?
    requires HasRefresh(w.file, r) && UsedIn(w.server.now, w.file[r].refresh)
    ensures exists t :: Runs(w, true, [Acquire(j), Load(j), AskRefresh(j), Refuse(j, Stored)], t) && t.server.replays == w.server.replays + 1
  {
    var a := Next(w, true, Acquire(j));
    var b := Next(a, true, Load(j));
    var c := Next(b, true, AskRefresh(j));
    var t := Next(c, true, Refuse(j, Stored));
    UsedIsReplay(c.server, w.file[r].refresh, Stored);
    RunsFour(w, true, [Acquire(j), Load(j), AskRefresh(j), Refuse(j, Stored)], a, b, c, t);
  }

  /** The steps by which a process lets go of the lock, wants the token again and asks for it. */
  function AskAgain(i: nat, r: string): seq<Step> {
    [Release(i), Want(i, r, false), Acquire(i), Load(i), AskRefresh(i), Refuse(i, Stored)]
  }

  /** The same, after the server has been restarted or not. */
  predicate AsksInTheEnd(evs: seq<Step>, i: nat, r: string) {
    evs == AskAgain(i, r) || (evs != [] && evs[0].Restart? && evs[1..] == AskAgain(i, r))
  }

  /** So every mishap has a continuation, without any other, in which an honest process is taken for a thief. */
  lemma MishapMeansReplay(w: World, step: Step)
    requires Orderly(w) && Enabled(w, true, step) && Mishap(w, step)
    ensures var n := Next(w, true, step);
            exists evs, t :: AsksInTheEnd(evs, step.agent, w.places[step.agent].resource) && NoMishaps(n, evs) && Runs(n, true, evs, t) &&
                             t.server.replays == w.server.replays + 1
  {
    var n, i, r := Next(w, true, step), step.agent, w.places[step.agent].resource;
    hide Orderly, Enabled, Next, Mishap, Runs, NoMishaps, AskAgain, UsedIn, HasRefresh;
    MishapBetrays(w, step);
    BetrayedAsks(n, i, r);
  }

  lemma BetrayedAsks(n: World, i: nat, r: string)
    requires Betrayed(n, r) && At(n, i) && n.places[i].Done? && n.holder == Some(i)
    ensures exists evs, t :: AsksInTheEnd(evs, i, r) && NoMishaps(n, evs) && Runs(n, true, evs, t) && t.server.replays == n.server.replays + 1
  {
    hide Enabled, Next, Mishap, Runs, NoMishaps, AskAgain, UsedIn;
    NoMishapsToAsk(i, r);
    if UsedIn(n.server.now, n.file[r].refresh) {
      var t := AsksAgain(n, i, r);
      Harmless(n, AskAgain(i, r));
    } else {
      var f :| f in n.server.files && UsedIn(f, n.file[r].refresh);
      var t := AsksAfterRestart(n, i, r, f, false);
      var evs := [Restart(f, false)] + AskAgain(i, r);
      assert evs[1..] == AskAgain(i, r);
      Harmless(n, evs);
    }
  }

  /** The server's own mishap in full: its answer was an error and was delivered, no write of the
      process fails, and after a restart, into doubt or not, it takes the process for a thief. */
  lemma FailedRotationReplays(w: World, i: nat, refresh: string, doubt: bool)
    requires Orderly(w) && Enabled(w, true, FailRotation(i, refresh, Halfway))
    ensures var step, r, f := FailRotation(i, refresh, Halfway), w.places[i].resource, Rotated(w.server.now, Asked(w.places[i]), refresh);
            exists t :: Runs(w, true, [step, Restart(f, doubt)] + AskAgain(i, r), t) && t.server.replays == w.server.replays + 1
  {
    var step, r, f := FailRotation(i, refresh, Halfway), w.places[i].resource, Rotated(w.server.now, Asked(w.places[i]), refresh);
    FailedRotationLeavesUsed(w, i, refresh);
    var n := Next(w, true, step);
    hide Orderly, Enabled, Next, Runs, AskAgain;
    var t := AsksAfterRestart(n, i, r, f, doubt);
    RunsMore(w, true, step, [Restart(f, doubt)] + AskAgain(i, r), t);
    assert [step] + ([Restart(f, doubt)] + AskAgain(i, r)) == [step, Restart(f, doubt)] + AskAgain(i, r);
  }

  lemma NoMishapsToAsk(i: nat, r: string)
    ensures var evs := AskAgain(i, r); forall k :: 0 <= k < |evs| ==> Innocent(evs[k])
  {
  }

  lemma AsksAfterRestart(n: World, i: nat, r: string, f: Tables, doubt: bool) returns (t: World)
    requires At(n, i) && n.places[i].Done? && n.holder == Some(i) && HasRefresh(n.file, r) && f in n.server.files && UsedIn(f, n.file[r].refresh)
    ensures Runs(n, true, [Restart(f, doubt)] + AskAgain(i, r), t) && t.server.replays == n.server.replays + 1
  {
    var m := Next(n, true, Restart(f, doubt));
    t := AsksAgain(m, i, r);
    hide Enabled, Next, Runs, AskAgain;
    RunsMore(n, true, Restart(f, doubt), AskAgain(i, r), t) by { assert Enabled(n, true, Restart(f, doubt)) by { Found(n, f, doubt); } }
  }

  lemma Found(n: World, f: Tables, doubt: bool)
    requires f in n.server.files
    ensures Enabled(n, true, Restart(f, doubt))
  {
  }

  lemma AsksAgain(n: World, i: nat, r: string) returns (t: World)
    requires HasRefresh(n.file, r) && UsedIn(n.server.now, n.file[r].refresh) && At(n, i) && n.places[i].Done? && n.holder == Some(i)
    ensures Runs(n, true, AskAgain(i, r), t) && t.server.replays == n.server.replays + 1
  {
    var a := Next(n, true, Release(i));
    var b := Next(a, true, Want(i, r, false));
    assert Enabled(n, true, Release(i)) && Enabled(a, true, Want(i, r, false));
    assert At(b, i) && b.places[i] == Waiting(r, GetToken) && b.holder.None? && b.file == n.file && b.server == n.server;
    hide Enabled, Next;
    UsedInFileMeansReplay(b, i, r);
    var rest := [Acquire(i), Load(i), AskRefresh(i), Refuse(i, Stored)];
    t :| Runs(b, true, rest, t) && t.server.replays == b.server.replays + 1;
    hide Runs;
    RunsMore(a, true, Want(i, r, false), rest, t);
    RunsMore(n, true, Release(i), [Want(i, r, false)] + rest, t);
    assert [Release(i)] + ([Want(i, r, false)] + rest) == AskAgain(i, r);
  }

  predicate Innocent(step: Step) {
    !step.LoseAnswer? && !step.FailSave? && !step.FailRotation?
  }

  /** Steps of which none is a lost answer, a failed rotation or a failed save are no mishaps. */
  lemma {:induction false} Harmless(w: World, steps: seq<Step>)
    requires forall k :: 0 <= k < |steps| ==> Innocent(steps[k])
    ensures NoMishaps(w, steps)
    decreases |steps|
  {
    if steps != [] {
      assert !Mishap(w, steps[0]);
      hide Enabled, Next;
      if Enabled(w, true, steps[0]) {
        Harmless(Next(w, true, steps[0]), steps[1..]);
      }
    }
  }

  /** The proviso is exact: a step leaves every run free of replays that has no mishap after it
      if and only if it is not one itself. */
  lemma HonestExactly(w: World, step: Step)
    requires Orderly(w) && Enabled(w, true, step)
    ensures (forall steps, t :: Runs(Next(w, true, step), true, steps, t) && NoMishaps(Next(w, true, step), steps) ==>
                                t.server.replays == w.server.replays)
            <==> !Mishap(w, step)
  {
    var n := Next(w, true, step);
    hide Orderly, Enabled, Next, Mishap, Runs, NoMishaps;
    if Mishap(w, step) {
      MishapMeansReplay(w, step);
    } else {
      StepIsOrderly(w, step);
      forall steps, t | Runs(n, true, steps, t) && NoMishaps(n, steps) ensures t.server.replays == w.server.replays {
        HonestNeverReplay(n, steps, t);
      }
    }
  }

  /** Without the lock two processes that wake up together are enough: both load the same
      token, one has it rotated, and the other's request is a replay. */
  lemma LockIsNeeded(w: World, i: nat, j: nat, r: string, access: string, refresh: string)
    requires i != j && At(w, i) && At(w, j) && w.places[i] == w.places[j] == Loaded(r, GetToken, w.file) && HasRefresh(w.file, r)
    requires w.file[r].refresh in w.server.now.live && IsNew(w, refresh) && w.server.now.live.Keys <= w.drawn && !w.server.doubt
    ensures exists t :: Runs(w, false, [AskRefresh(i), AskRefresh(j), Answer(i, access, refresh), Refuse(j, Stored)], t) &&
                        t.server.replays == w.server.replays + 1
  {
    var a := Next(w, false, AskRefresh(i));
    var b := Next(a, false, AskRefresh(j));
    assert At(b, i) && At(b, j) && b.places[i] == b.places[j] == Asking(r, w.file) && b.server == w.server && b.drawn == w.drawn;
    var c := BothAsked(b, i, j, r, w.file, access, refresh);
    hide Enabled;
    RunsMore(a, false, AskRefresh(j), [Answer(i, access, refresh), Refuse(j, Stored)], c) by { assert Enabled(a, false, AskRefresh(j)) by { FreeToAsk(w, i, j, r); } hide Next; }
    hide Next;
    assert Enabled(w, false, AskRefresh(i)) by { FreeToAsk(w, i, j, r); }
    RunsMore(w, false, AskRefresh(i), [AskRefresh(j)] + [Answer(i, access, refresh), Refuse(j, Stored)], c);
    assert [AskRefresh(i)] + ([AskRefresh(j)] + [Answer(i, access, refresh), Refuse(j, Stored)]) == [AskRefresh(i), AskRefresh(j), Answer(i, access, refresh), Refuse(j, Stored)];
  }

  lemma FreeToAsk(w: World, i: nat, j: nat, r: string)
    requires i != j && At(w, i) && At(w, j) && w.places[i] == w.places[j] == Loaded(r, GetToken, w.file) && HasRefresh(w.file, r)
    ensures Enabled(w, false, AskRefresh(i)) && Enabled(Next(w, false, AskRefresh(i)), false, AskRefresh(j))
  {
  }

  lemma BothAsked(b: World, i: nat, j: nat, r: string, store: Profiles, access: string, refresh: string) returns (t: World)
    requires i != j && At(b, i) && At(b, j) && b.places[i] == b.places[j] == Asking(r, store) && HasRefresh(store, r)
    requires store[r].refresh in b.server.now.live && IsNew(b, refresh) && b.server.now.live.Keys <= b.drawn && !b.server.doubt
    ensures Runs(b, false, [Answer(i, access, refresh), Refuse(j, Stored)], t) && t.server.replays == b.server.replays + 1
  {
    var c := Next(b, false, Answer(i, access, refresh));
    t := Next(c, false, Refuse(j, Stored));
    assert Enabled(c, false, Refuse(j, Stored)) && t.server.replays == b.server.replays + 1;
    hide Enabled, Next;
    RunsOne(c, false, Refuse(j, Stored));
    RunsMore(b, false, Answer(i, access, refresh), [Refuse(j, Stored)], t);
    assert [Answer(i, access, refresh)] + [Refuse(j, Stored)] == [Answer(i, access, refresh), Refuse(j, Stored)];
  }

  /** That situation is reached as soon as two processes want the same token. */
  lemma BothLoad(w: World, i: nat, j: nat, r: string)
    requires i != j && At(w, i) && At(w, j) && w.places[i] == w.places[j] == Waiting(r, GetToken)
    ensures exists t :: Runs(w, false, [Acquire(i), Acquire(j), Load(i), Load(j)], t) && t.file == w.file && t.server == w.server &&
                        t.places == w.places[i := Loaded(r, GetToken, w.file)][j := Loaded(r, GetToken, w.file)]
  {
    var a := Next(w, false, Acquire(i));
    var b := Next(a, false, Acquire(j));
    var c := Next(b, false, Load(i));
    var t := Next(c, false, Load(j));
    RunsFour(w, false, [Acquire(i), Acquire(j), Load(i), Load(j)], a, b, c, t);
  }

  /** The lock itself keeps two processes from ever being inside together. */
  lemma OneInside(w: World, i: nat, j: nat)
    requires Orderly(w) && At(w, i) && At(w, j) && Inside(w.places[i]) && Inside(w.places[j])
    ensures i == j
  {
    hide FileUnused, OnePlace, AllDrawn;
    assert w.holder == Some(i) && w.holder == Some(j);
  }
}
