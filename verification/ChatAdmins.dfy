/**
 Who acts as the admin. The code asks only whether the session's stored name is the
 admin's, and a login does not clear the array before it copies, so the tail of an
 earlier name can turn another name into the admin's. This module keeps every pause,
 resume and kick with sessions whose login under the admin's name was accepted, and says
 for which steps exactly that is kept.
 */
module ChatAdmins {
  import opened CText
  import opened ChatModel
  import opened ChatFlow
  import opened ChatNames
  import opened ChatGate

  /** A login of this session under the admin's name was accepted. */
  predicate EntitledAdmin(s: State, u: Id) { (u, s.admin) in s.logins }

  /** No tail makes the admin: a login that stores that name was checked under it, or one before it was. */
  predicate NoTailAdmin(s: State, l: Label) {
    l.Session? && l.step.Login? && Checked(s, l.id) && StoredName(s.sess[l.id], s.sess[l.id].phase.raw) == s.admin
    ==> CStr(s.sess[l.id].phase.raw) == s.admin || EntitledAdmin(s, l.id)
  }

  /** Every pause, resume and kick was the work of a session accepted under the admin's name. */
  predicate CommandsOk(s: State) {
    && (forall m :: m in s.marks ==> EntitledAdmin(s, m.actor))
    && (forall k :: k in s.kicks ==> EntitledAdmin(s, k.actor))
  }

  /** The same for whoever goes by the admin's name, and nobody else is inside a pause or resume. */
  ghost predicate AdminOk(s: State) {
    && (forall u :: IsAdmin(s, u) ==> EntitledAdmin(s, u))
    && (forall u :: AtGate(s, u) ==> IsAdmin(s, u))
    && CommandsOk(s)
  }

  lemma NameAfter(s: State, l: Label, u: Id)
    requires s.admin != [] && Enabled(s, l) && IsAdmin(Apply(s, l), u)
    ensures u in s.sess || l == Connect(u)
    ensures if l == Session(u, Login) then StoredName(s.sess[u], s.sess[u].phase.raw) == s.admin
            else IsAdmin(s, u)
  {
    if u in s.sess {
      NameFields(s, l, u);
      assert Apply(s, l).sess[u] == SessionAfter(s, l, u);
    } else {
      CStrOfZeros(NAME_ARRAY);
    }
  }

  lemma EntitledStep(s: State, l: Label, u: Id)
    requires s.admin != [] && AdminOk(s) && Enabled(s, l) && NoTailAdmin(s, l) && IsAdmin(Apply(s, l), u)
    ensures EntitledAdmin(Apply(s, l), u)
  {
    NameAfter(s, l, u);
  }

  lemma AtGateIsAdmin(s: State, l: Label, u: Id)
    requires AdminOk(s) && Enabled(s, l) && AtGate(Apply(s, l), u)
    ensures IsAdmin(Apply(s, l), u)
  {
    GateFields(s, l, u);
    if AtGate(s, u) {
      assert IsAdmin(s, u);
    } else {
      EntersGate(s, u, l.step);
    }
  }

  lemma CommandsStep(s: State, l: Label)
    requires AdminOk(s) && Enabled(s, l)
    ensures CommandsOk(Apply(s, l))
  {
    var t := Apply(s, l);
    if t.marks != s.marks { assert AtGate(s, l.id); }
    forall m | m in t.marks
      ensures EntitledAdmin(t, m.actor)
    {
      if m !in s.marks { assert m.actor == l.id && AtGate(s, l.id); }
    }
    forall k | k in t.kicks
      ensures EntitledAdmin(t, k.actor)
    {
      if k !in s.kicks { assert k.actor == l.id && IsAdmin(s, l.id); }
    }
  }

  lemma AdminStep(s: State, l: Label)
    requires s.admin != [] && AdminOk(s) && Enabled(s, l) && NoTailAdmin(s, l)
    ensures AdminOk(Apply(s, l))
  {
    var t := Apply(s, l);
    forall u | IsAdmin(t, u)
      ensures EntitledAdmin(t, u)
    {
      EntitledStep(s, l, u);
    }
    forall u | AtGate(t, u)
      ensures IsAdmin(t, u)
    {
      AtGateIsAdmin(s, l, u);
    }
    CommandsStep(s, l);
  }

  /** A step keeps this exactly when it is not a login that only a tail makes the admin's. */
  lemma TailIsExact(s: State, l: Label)
    requires s.admin != [] && AdminOk(s) && Enabled(s, l)
    ensures AdminOk(Apply(s, l)) <==> NoTailAdmin(s, l)
  {
    if NoTailAdmin(s, l) {
      AdminStep(s, l);
    } else {
      var t := Apply(s, l);
      LoginFields(s, l.id);
      assert t.sess[l.id] == SessionAfter(s, l, l.id);
      assert IsAdmin(t, l.id) && !EntitledAdmin(t, l.id);
    }
  }
}
