/**
 * The signup form slice: a flat record of four form fields and the five
 * reducers that change it.
 *
 * The reducers are given twice. `Reduce` is the reducer as a function from a
 * state snapshot and an action to the next snapshot (the reading under which
 * every dispatch produces a new immutable state). `SignupForm` is the state
 * record itself, whose methods assign its fields in place as the reducer
 * bodies do; each method's postcondition ties the new snapshot to `Reduce`.
 */
module SignupSlice {

  /** The form state: three text inputs and the "remember me" checkbox. */
  datatype SignupState = SignupState(name: string, email: string, password: string, rememberMe: bool)

  /** The actions the slice handles, each carrying its payload. */
  datatype Action =
    | SetName(string)
    | SetEmail(string)
    | SetPassword(string)
    | SetRememberMe(bool)
    | ResetForm

  /** The four fields of the record, so that properties can be stated once for all of them. */
  datatype Field = Name | Email | Password | RememberMe

  /** The value held in a field: text for the three inputs, a flag for the checkbox. */
  datatype Value = Text(text: string) | Flag(flag: bool)

  /** The value field `f` holds in state `s`. */
  function Get(s: SignupState, f: Field): Value
  {
    match f
    case Name => Text(s.name)
    case Email => Text(s.email)
    case Password => Text(s.password)
    case RememberMe => Flag(s.rememberMe)
  }

  /** The empty value of a field's type: the empty string, or false for the checkbox. */
  function Blank(f: Field): Value
  {
    if f == RememberMe then Flag(false) else Text("")
  }

  /** The state the slice starts from: every field blank. */
  function InitialState(): (s: SignupState)
    ensures forall f :: Get(s, f) == Blank(f)
  {
    SignupState("", "", "", false)
  }

  /** The fields that the reducer for action `a` assigns. */
  function Writes(a: Action): set<Field>
  {
    match a
    case SetName(_) => {Name}
    case SetEmail(_) => {Email}
    case SetPassword(_) => {Password}
    case SetRememberMe(_) => {RememberMe}
    case ResetForm => {Name, Email, Password, RememberMe}
  }

  /** The value the reducer for action `a` assigns to field `f`: the payload, or blank on reset. */
  function Written(a: Action, f: Field): Value
    requires f in Writes(a)
  {
    match a
    case SetName(v) => Text(v)
    case SetEmail(v) => Text(v)
    case SetPassword(v) => Text(v)
    case SetRememberMe(b) => Flag(b)
    case ResetForm => Blank(f)
  }

  /**
   * The slice's reducer: the next state after action `a` in state `s`.
   * Every field the action writes holds the written value; every other field
   * keeps the value it had.
   */
  function Reduce(s: SignupState, a: Action): (r: SignupState)
    ensures forall f :: Get(r, f) == if f in Writes(a) then Written(a, f) else Get(s, f)
  {
    match a
    case SetName(v) => s.(name := v)
    case SetEmail(v) => s.(email := v)
    case SetPassword(v) => s.(password := v)
    case SetRememberMe(b) => s.(rememberMe := b)
    case ResetForm => SignupState("", "", "", false)
  }

  /** The state after dispatching `actions` in order, starting from `s`. */
  function Run(s: SignupState, actions: seq<Action>): SignupState
  {
    if actions == [] then s
    else Reduce(Run(s, actions[..|actions| - 1]), actions[|actions| - 1])
  }

  /** Two states are equal exactly when they agree on every field. */
  lemma SameFieldsSameState(s: SignupState, t: SignupState)
    ensures (forall f :: Get(s, f) == Get(t, f)) <==> s == t
  {
    if forall f :: Get(s, f) == Get(t, f) {
      assert Get(s, Name) == Get(t, Name);
      assert Get(s, Email) == Get(t, Email);
      assert Get(s, Password) == Get(t, Password);
      assert Get(s, RememberMe) == Get(t, RememberMe);
    }
  }

  /** `resetForm` yields the initial state whatever the fields held before. */
  lemma ResetYieldsInitial(s: SignupState)
    ensures Reduce(s, ResetForm) == InitialState()
  {
  }

  /** Resetting twice gives the same state as resetting once. */
  lemma ResetIdempotent(s: SignupState)
    ensures Reduce(Reduce(s, ResetForm), ResetForm) == Reduce(s, ResetForm)
  {
  }

  /**
   * An action that writes every field the earlier one wrote erases the earlier
   * one: `setX(a); setX(b)` equals `setX(b)`, and a reset after any action is
   * just a reset.
   */
  lemma LaterWriteWins(s: SignupState, a: Action, b: Action)
    requires Writes(a) <= Writes(b)
    ensures Reduce(Reduce(s, a), b) == Reduce(s, b)
  {
  }

  /** Actions that write different fields commute. */
  lemma DisjointWritesCommute(s: SignupState, a: Action, b: Action)
    requires Writes(a) !! Writes(b)
    ensures Reduce(Reduce(s, a), b) == Reduce(Reduce(s, b), a)
  {
  }

  /** A field that no dispatched action writes keeps its value through the whole history. */
  lemma {:induction false} UntouchedFieldKept(s: SignupState, actions: seq<Action>, f: Field)
    requires forall j :: 0 <= j < |actions| ==> f !in Writes(actions[j])
    ensures Get(Run(s, actions), f) == Get(s, f)
  {
    if actions != [] {
      var prefix := actions[..|actions| - 1];
      assert forall j :: 0 <= j < |prefix| ==> prefix[j] == actions[j];
      UntouchedFieldKept(s, prefix, f);
      assert f !in Writes(actions[|actions| - 1]);
    }
  }

  /**
   * Last write wins over a whole history: a field holds the value written by
   * the last action that writes it.
   */
  lemma {:induction false} LastWriteDecides(s: SignupState, actions: seq<Action>, f: Field, i: nat)
    requires i < |actions| && f in Writes(actions[i])
    requires forall j :: i < j < |actions| ==> f !in Writes(actions[j])
    ensures Get(Run(s, actions), f) == Written(actions[i], f)
  {
    var prefix := actions[..|actions| - 1];
    if i < |actions| - 1 {
      assert forall j :: 0 <= j < |prefix| ==> prefix[j] == actions[j];
      LastWriteDecides(s, prefix, f, i);
    }
  }

  /**
   * A reset anywhere in a history makes everything before it irrelevant: the
   * final state is the one reached from the initial state by the actions after
   * the reset.
   */
  lemma {:induction false} ResetForgetsHistory(s: SignupState, actions: seq<Action>, i: nat)
    requires i < |actions| && actions[i] == ResetForm
    ensures Run(s, actions) == Run(InitialState(), actions[i + 1..])
  {
    var n := |actions|;
    var prefix := actions[..n - 1];
    if i == n - 1 {
      ResetYieldsInitial(Run(s, prefix));
      assert actions[i + 1..] == [];
    } else {
      assert prefix[i] == actions[i];
      ResetForgetsHistory(s, prefix, i);
      var suffix := actions[i + 1..];
      assert suffix[..|suffix| - 1] == prefix[i + 1..];
      assert suffix[|suffix| - 1] == actions[n - 1];
    }
  }

  /** The form state as the store holds it, updated in place by the reducers. */
  class SignupForm {
    var name: string
    var email: string
    var password: string
    var rememberMe: bool

    /** The current values of the four fields as one state value. */
    function Snapshot(): SignupState
      reads this
    {
      SignupState(name, email, password, rememberMe)
    }

    /** A form created with the slice's initial state. */
    constructor ()
      ensures Snapshot() == InitialState()
    {
      name, email, password, rememberMe := "", "", "", false;
    }

    /** Reducer `setName`: replaces the name and nothing else. */
    method SetName(v: string)
      modifies this
      ensures name == v
      ensures email == old(email) && password == old(password) && rememberMe == old(rememberMe)
      ensures Snapshot() == Reduce(old(Snapshot()), Action.SetName(v))
    {
      name := v;
    }

    /** Reducer `setEmail`: replaces the email and nothing else. */
    method SetEmail(v: string)
      modifies this
      ensures email == v
      ensures name == old(name) && password == old(password) && rememberMe == old(rememberMe)
      ensures Snapshot() == Reduce(old(Snapshot()), Action.SetEmail(v))
    {
      email := v;
    }

    /** Reducer `setPassword`: replaces the password and nothing else. */
    method SetPassword(v: string)
      modifies this
      ensures password == v
      ensures name == old(name) && email == old(email) && rememberMe == old(rememberMe)
      ensures Snapshot() == Reduce(old(Snapshot()), Action.SetPassword(v))
    {
      password := v;
    }

    /** Reducer `setRememberMe`: replaces the checkbox flag and nothing else. */
    method SetRememberMe(b: bool)
      modifies this
      ensures rememberMe == b
      ensures name == old(name) && email == old(email) && password == old(password)
      ensures Snapshot() == Reduce(old(Snapshot()), Action.SetRememberMe(b))
    {
      rememberMe := b;
    }

    /** Reducer `resetForm`: clears all four fields together. */
    method ResetForm()
      modifies this
      ensures name == "" && email == "" && password == "" && !rememberMe
      ensures Snapshot() == InitialState()
      ensures Snapshot() == Reduce(old(Snapshot()), Action.ResetForm)
    {
      name := "";
      email := "";
      password := "";
      rememberMe := false;
      ResetYieldsInitial(old(Snapshot()));
    }

    /** The slice's reducer applied to this form: runs the case the action names. */
    method Dispatch(a: Action)
      modifies this
      ensures Snapshot() == Reduce(old(Snapshot()), a)
    {
      match a
      case SetName(v) => SetName(v);
      case SetEmail(v) => SetEmail(v);
      case SetPassword(v) => SetPassword(v);
      case SetRememberMe(b) => SetRememberMe(b);
      case ResetForm => ResetForm();
    }
  }
}
