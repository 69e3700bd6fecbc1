/**
 Unique names. The name check and the login are two critical sections, so the code
 alone does not keep names unique; this module says what a schedule must respect, and
 `ChatRace` that this is exact. What counts is the name a login will store, which a tail
 of the session's previous name can make different from the name that was checked.
 */
module ChatNames {
  import opened CText
  import opened ChatModel
  import opened ChatFlow

  ghost predicate UniqueNames(s: State) {
    forall u, v :: LoggedIn(s, u) && LoggedIn(s, v) && u != v ==> Name(s, u) != Name(s, v)
  }

  /** `login_User` copies without clearing: the new name is stored whole if it ends itself or what is behind it. */
  predicate StoresWhole(x: Record, raw: RawName) {
    |CStr(raw)| < |raw| || x.buf[|raw|] == NUL
  }

  function StoredName(x: Record, raw: RawName): Text {
    CStr(StrNCpy(x.buf, raw, |raw|))
  }

  predicate Checked(s: State, u: Id) { u in s.sess && s.sess[u].phase.NameChecked? }

  /** `u` is online under this name, or cleared for a login that will store it. */
  predicate Claims(s: State, u: Id, n: Text) {
    (LoggedIn(s, u) && Name(s, u) == n) || (Checked(s, u) && StoredName(s.sess[u], s.sess[u].phase.raw) == n)
  }

  ghost predicate ClaimedByOther(s: State, id: Id, n: Text) { exists v :: v != id && Claims(s, v, n) }

  /** At most one session claims this name. */
  ghost predicate OneClaim(s: State, n: Text) {
    forall u, v :: Claims(s, u, n) && Claims(s, v, n) ==> u == v
  }

  /** The step is a check that clears its session for a login that will store this name. */
  predicate ClearsFor(s: State, l: Label, n: Text) {
    l.Session? && l.step.CheckName? && l.id in s.sess && StoredName(s.sess[l.id], l.step.raw) == n
  }

  /** What a schedule must respect: no check clears a session for a name that another one claims. */
  ghost predicate Careful(s: State, l: Label) {
    forall n :: ClearsFor(s, l, n) ==> !ClaimedByOther(s, l.id, n)
  }

  /** The same for the admin's name only. */
  ghost predicate GuardsAdmin(s: State, l: Label) {
    ClearsFor(s, l, s.admin) ==> !ClaimedByOther(s, l.id, s.admin)
  }

  ghost predicate NamesOk(s: State) {
    forall n :: OneClaim(s, n)
  }

  /** At most one session is online under this name. */
  ghost predicate OneOnline(s: State, n: Text) {
    forall u, v :: LoggedIn(s, u) && LoggedIn(s, v) && Name(s, u) == n && Name(s, v) == n ==> u == v
  }

  ghost predicate OneAdmin(s: State) { OneOnline(s, s.admin) }

  lemma LoginFields(s: State, u: Id)
    requires Enabled(s, Session(u, Login))
    ensures var x, y := s.sess[u], SessionAfter(s, Session(u, Login), u);
      x.phase.NameChecked? && y.loggedIn && CStr(y.buf) == StoredName(x, x.phase.raw) && !y.phase.NameChecked?
  {
  }

  lemma OtherFields(s: State, id: Id, step: Step)
    requires Enabled(s, Session(id, step)) && !step.Login?
    ensures var x, y := s.sess[id], RecordAfter(s, id, step);
      && y.buf == x.buf && (y.loggedIn ==> x.loggedIn) && y.nameLength == x.nameLength
      && (y.phase.NameChecked? ==> step == CheckName(y.phase.raw))
  {
  }

  /** How the fields that names depend on change. */
  lemma NameFields(s: State, l: Label, u: Id)
    requires Enabled(s, l) && u in s.sess
    ensures var x, y := s.sess[u], SessionAfter(s, l, u);
      && (l == Session(u, Login) ==>
            x.phase.NameChecked? && y.loggedIn && CStr(y.buf) == StoredName(x, x.phase.raw) && !y.phase.NameChecked?)
      && (l != Session(u, Login) ==>
            y.buf == x.buf && (y.loggedIn ==> x.loggedIn)
            && y.nameLength == x.nameLength
            && (y.phase.NameChecked? ==> y.phase == x.phase || l == Session(u, CheckName(y.phase.raw))))
  {
    if l == Session(u, Login) {
      LoginFields(s, u);
    } else if l.Session? && l.id == u {
      OtherFields(s, u, l.step);
    }
  }

  lemma StoredWhole(x: Record, raw: RawName)
    ensures StoredName(x, raw) == CStr(raw) <==> StoresWhole(x, raw)
  {
    StrNCpyReadsBack(x.buf, raw, |raw|);
  }

  /** One login keeps the names unique exactly when the name it stores is still free. */
  lemma LoginKeepsUnique(s: State, id: Id)
    requires UniqueNames(s) && Enabled(s, Session(id, Login))
    ensures UniqueNames(Apply(s, Session(id, Login)))
            <==> forall v :: LoggedIn(s, v) && v != id ==> Name(s, v) != StoredName(s.sess[id], s.sess[id].phase.raw)
  {
    var l := Session(id, Login);
    var t := Apply(s, l);
    forall u | u in s.sess
      ensures u != id ==> LoggedIn(t, u) == LoggedIn(s, u) && Name(t, u) == Name(s, u)
    {
      assert t.sess[u] == SessionAfter(s, l, u);
    }
    NameFields(s, l, id);
    assert LoggedIn(t, id) && Name(t, id) == StoredName(s.sess[id], s.sess[id].phase.raw);
  }

  lemma NameFacts(s: State, l: Label, u: Id)
    requires Enabled(s, l)
    ensures var t := Apply(s, l);
      && (LoggedIn(t, u) ==>
            (if l == Session(u, Login)
             then Checked(s, u) && Name(t, u) == StoredName(s.sess[u], s.sess[u].phase.raw)
             else LoggedIn(s, u) && Name(t, u) == Name(s, u)))
      && (Checked(t, u) ==>
            && u in s.sess && t.sess[u].buf == s.sess[u].buf && l != Session(u, Login)
            && (t.sess[u].phase == s.sess[u].phase || l == Session(u, CheckName(t.sess[u].phase.raw))))
  {
    if u in s.sess {
      NameFields(s, l, u);
      assert Apply(s, l).sess[u] == SessionAfter(s, l, u);
    }
  }

  /** A claim is made by a check and kept, or turned into an online name, by everything else. */
  lemma ClaimsStep(s: State, l: Label, u: Id, n: Text)
    requires Enabled(s, l) && Claims(Apply(s, l), u, n)
    ensures Claims(s, u, n) || (l.Session? && l.id == u && ClearsFor(s, l, n))
  {
    NameFacts(s, l, u);
  }

  lemma OneClaimStep(s: State, l: Label, n: Text)
    requires OneClaim(s, n) && Enabled(s, l) && (ClearsFor(s, l, n) ==> !ClaimedByOther(s, l.id, n))
    ensures OneClaim(Apply(s, l), n)
  {
    forall u, v | Claims(Apply(s, l), u, n) && Claims(Apply(s, l), v, n)
      ensures u == v
    {
      ClaimsStep(s, l, u, n);
      ClaimsStep(s, l, v, n);
    }
  }

  lemma NamesStep(s: State, l: Label)
    requires NamesOk(s) && Enabled(s, l) && Careful(s, l)
    ensures NamesOk(Apply(s, l))
  {
    forall n
      ensures OneClaim(Apply(s, l), n)
    {
      assert OneClaim(s, n);
      OneClaimStep(s, l, n);
    }
  }

  lemma ClaimsAreUnique(s: State)
    requires NamesOk(s)
    ensures UniqueNames(s)
  {
    forall u, v | LoggedIn(s, u) && LoggedIn(s, v) && Name(s, u) == Name(s, v)
      ensures u == v
    {
      assert OneClaim(s, Name(s, u)) && Claims(s, u, Name(s, u)) && Claims(s, v, Name(s, u));
    }
  }

  lemma OneClaimOneOnline(s: State, n: Text)
    requires OneClaim(s, n)
    ensures OneOnline(s, n)
  {
    assert forall u :: LoggedIn(s, u) && Name(s, u) == n ==> Claims(s, u, n);
  }

  // ---------------------------------------------------------------- the name that frames show

  lemma ShownFields(s: State, l: Label, u: Id)
    requires Enabled(s, l) && u in s.sess
    ensures ShownOf(SessionAfter(s, l, u))
         == if l == Session(u, Login) then CStr(s.sess[u].phase.raw) else ShownOf(s.sess[u])
  {
    if l == Session(u, Login) {
      SeenAfterCopy(s.sess[u].buf, s.sess[u].phase.raw);
    } else {
      NameFields(s, l, u);
    }
  }

  /** Frames show the name that was checked last, whatever tail the stored one has. */
  lemma ShownStep(s: State, l: Label, u: Id)
    requires Enabled(s, l)
    ensures Shown(Apply(s, l), u) == if l == Session(u, Login) then CStr(s.sess[u].phase.raw) else Shown(s, u)
  {
    if u in s.sess {
      ShownFields(s, l, u);
      assert Apply(s, l).sess[u] == SessionAfter(s, l, u);
    }
  }

  /** Everybody is shown under the name it is stored under. */
  ghost predicate Whole(s: State) {
    forall u :: u in s.sess ==> Shown(s, u) == Name(s, u)
  }

  lemma NameStep(s: State, l: Label, u: Id)
    requires Enabled(s, l)
    ensures Name(Apply(s, l), u)
         == if l == Session(u, Login) then StoredName(s.sess[u], s.sess[u].phase.raw) else Name(s, u)
  {
    if u in s.sess {
      NameFields(s, l, u);
      assert Apply(s, l).sess[u] == SessionAfter(s, l, u);
    } else {
      CStrOfZeros(NAME_ARRAY);
    }
  }

  /** A step keeps that exactly when it is not a login that leaves a tail. */
  lemma WholeStep(s: State, l: Label)
    requires Whole(s) && Enabled(s, l)
    ensures Whole(Apply(s, l))
            <==> (l.Session? && l.step.Login? ==> StoresWhole(s.sess[l.id], s.sess[l.id].phase.raw))
  {
    forall u | u in Apply(s, l).sess
      ensures l != Session(u, Login) ==> Shown(Apply(s, l), u) == Name(Apply(s, l), u)
    {
      ShownStep(s, l, u);
      NameStep(s, l, u);
    }
    if l.Session? && l.step.Login? {
      ShownStep(s, l, l.id);
      NameStep(s, l, l.id);
      StoredWhole(s.sess[l.id], s.sess[l.id].phase.raw);
      assert l.id in Apply(s, l).sess;
    }
  }

  lemma FirstStoresWhole(s: State, u: Id)
    requires Shape(s) && Enabled(s, Session(u, Login)) && !LoggedIn(s, u)
    ensures StoresWhole(s.sess[u], s.sess[u].phase.raw)
  {
    assert SessionOk(s.sess[u]);
  }

  // ---------------------------------------------------------------- accepted names

  /** A name the checks let through. */
  predicate Acceptable(name: Text) {
    !Forbidden(name) && NUL !in name && |name| <= MAX_NAME
  }

  predicate CleanByte(b: Byte, i: nat) {
    b == NUL || (i < MAX_NAME && !BadByte(b))
  }

  /** A name array holds acceptable bytes, and a terminator after thirty of them. */
  predicate CleanBuffer(buf: NameBuffer) {
    forall i :: 0 <= i < NAME_ARRAY ==> CleanByte(buf[i], i)
  }

  lemma CleanIsAcceptable(buf: NameBuffer)
    requires CleanBuffer(buf)
    ensures Acceptable(CStr(buf))
  {
    var name := CStr(buf);
    assert CleanByte(buf[MAX_NAME], MAX_NAME);
    forall i | 0 <= i < |name|
      ensures i < MAX_NAME && !BadByte(name[i])
    {
      assert CleanByte(buf[i], i);
      assert name[i] == buf[i] && name[i] in name;
    }
  }

  lemma StoredByte(buf: NameBuffer, raw: RawName, i: nat)
    requires i < NAME_ARRAY
    ensures StrNCpy(buf, raw, |raw|)[i]
         == if i < |CStr(raw)| then CStr(raw)[i] else if i < |raw| then NUL else buf[i]
  {
    assert |CStr(raw)| <= |raw|;
  }

  lemma NoBadByte(name: Text, i: nat)
    requires !Forbidden(name) && i < |name|
    ensures !BadByte(name[i])
  {
  }

  lemma StoredByteIsClean(buf: NameBuffer, raw: RawName, i: nat)
    requires i < NAME_ARRAY && CleanByte(buf[i], i) && Acceptable(CStr(raw))
    ensures CleanByte(StrNCpy(buf, raw, |raw|)[i], i)
  {
    StoredByte(buf, raw, i);
    if i < |CStr(raw)| { NoBadByte(CStr(raw), i); }
  }

  lemma StoredIsClean(buf: NameBuffer, raw: RawName)
    requires CleanBuffer(buf) && Acceptable(CStr(raw))
    ensures CleanBuffer(StrNCpy(buf, raw, |raw|))
  {
    var stored := StrNCpy(buf, raw, |raw|);
    forall i | 0 <= i < NAME_ARRAY
      ensures CleanByte(stored[i], i)
    {
      assert CleanByte(buf[i], i);
      StoredByteIsClean(buf, raw, i);
    }
  }

  /** Whatever is checked, accepted or stored is acceptable, tails included. */
  ghost predicate AcceptedOk(s: State) {
    && (forall u :: Checked(s, u) ==> Acceptable(CStr(s.sess[u].phase.raw)))
    && (forall u, n :: (u, n) in s.logins ==> Acceptable(n))
    && (forall u :: u in s.sess ==> CleanBuffer(s.sess[u].buf))
  }

  lemma CleanStep(s: State, l: Label, u: Id)
    requires AcceptedOk(s) && Enabled(s, l) && u in Apply(s, l).sess
    ensures CleanBuffer(Apply(s, l).sess[u].buf)
  {
    if u in s.sess {
      NameFields(s, l, u);
      if l == Session(u, Login) {
        assert Checked(s, u);
        StoredIsClean(s.sess[u].buf, s.sess[u].phase.raw);
      }
    }
  }

  lemma AcceptedStep(s: State, l: Label)
    requires AcceptedOk(s) && Enabled(s, l)
    ensures AcceptedOk(Apply(s, l))
  {
    var t := Apply(s, l);
    forall u | Checked(t, u)
      ensures Acceptable(CStr(t.sess[u].phase.raw))
    {
      NameFacts(s, l, u);
      if t.sess[u].phase == s.sess[u].phase { assert Checked(s, u); }
    }
    forall u | u in t.sess
      ensures CleanBuffer(t.sess[u].buf)
    {
      CleanStep(s, l, u);
    }
  }
}
