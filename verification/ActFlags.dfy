/**
 The flags of `browser act`.

 `Parse` is the parser as a function from the words left over and the slots filled so far, and
 `ParseBrowserAct` the loop that fills the slots. A flag with its value is a `Group`; what the
 parser accepts is stated by groups, as nothing but their set.
 */
module ActFlags {
  import opened Prelude

  datatype ActKind = Click | Focus | Hover | Fill | Select | Check | Uncheck | Press | ScrollIntoView

  datatype Flag = BrowserId | SnapshotId | DocumentEpoch | TargetRef | ExecutionMode | Act(kind: ActKind)

  datatype Mode = Background | Foreground

  datatype BrowserAction = BrowserAction(kind: ActKind, value: string)

  datatype BrowserAct = BrowserAct(
    browserId: string, snapshotId: string, documentEpoch: nat, targetRef: string,
    action: BrowserAction, mode: Mode)

  datatype Error =
    | UnknownArgument(arg: string)
    | Duplicate(flag: Flag)
    | NeedsValue(flag: Flag)
    | BadValue(flag: Flag)
    | SecondAction
    | Missing(flag: Flag)
    | NoAction
    | NotWellFormed

  const MAX_U64: nat := 18_446_744_073_709_551_615
  const MAX_BROWSER_ID_CHARS: nat := 80
  const MAX_BROWSER_ACTION_VALUE_CHARS: nat := 8_192

  // ----- Words -----

  function NameOf(flag: Flag): string {
    match flag
    case BrowserId => "--browser-id"
    case SnapshotId => "--snapshot-id"
    case DocumentEpoch => "--document-epoch"
    case TargetRef => "--ref"
    case ExecutionMode => "--execution-mode"
    case Act(Click) => "--click"
    case Act(Focus) => "--focus"
    case Act(Hover) => "--hover"
    case Act(Fill) => "--fill"
    case Act(Select) => "--select"
    case Act(Check) => "--check"
    case Act(Uncheck) => "--uncheck"
    case Act(Press) => "--press"
    case Act(ScrollIntoView) => "--scroll-into-view"
  }

  const FLAGS: seq<Flag> :=
    [BrowserId, SnapshotId, DocumentEpoch, TargetRef, ExecutionMode, Act(Click), Act(Focus), Act(Hover),
     Act(Fill), Act(Select), Act(Check), Act(Uncheck), Act(Press), Act(ScrollIntoView)]

  function Find(arg: string, i: nat): (flag: Option<Flag>)
    requires i <= |FLAGS|
    ensures flag.Some? ==> NameOf(flag.value) == arg
    ensures flag.None? ==> forall j | i <= j < |FLAGS| :: NameOf(FLAGS[j]) != arg
    decreases |FLAGS| - i
  {
    if i == |FLAGS| then None
    else if NameOf(FLAGS[i]) == arg then Some(FLAGS[i])
    else Find(arg, i + 1)
  }

  function FlagOf(arg: string): Option<Flag> {
    Find(arg, 0)
  }

  lemma NamesDiffer(f: Flag, g: Flag)
    requires NameOf(f) == NameOf(g)
    ensures f == g
  {}

  lemma Listed(flag: Flag) returns (j: nat)
    ensures j < |FLAGS| && FLAGS[j] == flag
  {
    j := match flag
      case BrowserId => 0
      case SnapshotId => 1
      case DocumentEpoch => 2
      case TargetRef => 3
      case ExecutionMode => 4
      case Act(Click) => 5
      case Act(Focus) => 6
      case Act(Hover) => 7
      case Act(Fill) => 8
      case Act(Select) => 9
      case Act(Check) => 10
      case Act(Uncheck) => 11
      case Act(Press) => 12
      case Act(ScrollIntoView) => 13;
  }

  lemma FlagOfName(flag: Flag)
    ensures FlagOf(NameOf(flag)) == Some(flag)
  {
    var j := Listed(flag);
    assert NameOf(FLAGS[j]) == NameOf(flag);
    NamesDiffer(FlagOf(NameOf(flag)).value, flag);
  }

  predicate TakesValue(flag: Flag) {
    match flag
    case Act(kind) => kind.Fill? || kind.Select? || kind.Press?
    case _ => true
  }

  predicate LooksLikeFlag(word: string) {
    |word| >= 2 && word[0] == '-' && word[1] == '-'
  }

  // ----- Values -----

  /** An optional plus sign and digits, up to the largest 64-bit value. */
  function ParseU64(word: string): Option<nat> {
    var digits := if word != "" && word[0] == '+' then word[1..] else word;
    if digits != "" && (forall c | c in digits :: IsDecimal(c)) && NumberOf(digits) <= MAX_U64
    then Some(NumberOf(digits)) else None
  }

  function ParseMode(word: string): Option<Mode> {
    if word == "background" then Some(Background)
    else if word == "foreground" then Some(Foreground)
    else None
  }

  predicate IsIdCharacter(c: char) {
    'a' <= c <= 'z' || 'A' <= c <= 'Z' || IsDecimal(c) || c == '-' || c == '_'
  }

  predicate ValidBrowserId(id: string) {
    id != "" && |id| <= MAX_BROWSER_ID_CHARS && forall c | c in id :: IsIdCharacter(c)
  }

  predicate ValidPressKey(key: string) {
    || key == "Enter" || key == "Escape" || key == "Tab" || key == " " || key == "ArrowUp"
    || key == "ArrowDown" || key == "ArrowLeft" || key == "ArrowRight" || key == "Backspace"
    || key == "Delete" || key == "Home" || key == "End" || key == "PageUp" || key == "PageDown"
  }

  predicate IsWellFormed(act: BrowserAct) {
    && ValidBrowserId(act.browserId)
    && match act.action.kind
       case Fill => |act.action.value| <= MAX_BROWSER_ACTION_VALUE_CHARS
       case Select => act.action.value != "" && |act.action.value| <= MAX_BROWSER_ACTION_VALUE_CHARS
       case Press => ValidPressKey(act.action.value)
       case _ => true
  }

  // ----- The parser as a function -----

  datatype Slots = Slots(
    browserId: Option<string>, snapshotId: Option<string>, documentEpoch: Option<nat>,
    targetRef: Option<string>, mode: Option<Mode>, action: Option<BrowserAction>)

  const EMPTY := Slots(None, None, None, None, None, None)

  predicate Taken(slots: Slots, flag: Flag) {
    match flag
    case BrowserId => slots.browserId.Some?
    case SnapshotId => slots.snapshotId.Some?
    case DocumentEpoch => slots.documentEpoch.Some?
    case TargetRef => slots.targetRef.Some?
    case ExecutionMode => slots.mode.Some?
    case Act(_) => slots.action.Some?
  }

  /** The value, if the flag can have it. */
  predicate Fits(flag: Flag, value: string) {
    && (flag.DocumentEpoch? ==> ParseU64(value).Some?)
    && (flag.ExecutionMode? ==> ParseMode(value).Some?)
  }

  function Put(slots: Slots, flag: Flag, value: string): Slots
    requires Fits(flag, value)
  {
    match flag
    case BrowserId => slots.(browserId := Some(value))
    case SnapshotId => slots.(snapshotId := Some(value))
    case DocumentEpoch => slots.(documentEpoch := ParseU64(value))
    case TargetRef => slots.(targetRef := Some(value))
    case ExecutionMode => slots.(mode := ParseMode(value))
    case Act(kind) => slots.(action := Some(BrowserAction(kind, value)))
  }

  predicate ValueFollows(args: seq<string>) {
    |args| >= 2 && !LooksLikeFlag(args[1])
  }

  function Refusal(flag: Flag): Error {
    if flag.Act? then SecondAction else Duplicate(flag)
  }

  /** One flag from the front, with its value: the new slots and the words left. A repeated value
      flag is refused before its value is looked at, a second action after. */
  function Step(args: seq<string>, slots: Slots): (r: Result<(Slots, seq<string>), Error>)
    requires args != []
    ensures r.Ok? ==> |r.value.1| < |args|
  {
    var found := FlagOf(args[0]);
    if found.None? then Err(UnknownArgument(args[0]))
    else
      var flag := found.value;
      if !flag.Act? && Taken(slots, flag) then Err(Refusal(flag))
      else if !TakesValue(flag) then
        if Taken(slots, flag) then Err(Refusal(flag)) else Ok((Put(slots, flag, ""), args[1..]))
      else if !ValueFollows(args) then Err(NeedsValue(flag))
      else if Taken(slots, flag) then Err(Refusal(flag))
      else if !Fits(flag, args[1]) then Err(BadValue(flag))
      else Ok((Put(slots, flag, args[1]), args[2..]))
  }

  function FillSlots(args: seq<string>, slots: Slots): Result<Slots, Error>
    decreases |args|
  {
    if args == [] then Ok(slots)
    else match Step(args, slots)
      case Err(e) => Err(e)
      case Ok((next, rest)) => FillSlots(rest, next)
  }

  function Assemble(slots: Slots): Result<BrowserAct, Error> {
    if slots.browserId.None? then Err(Missing(BrowserId))
    else if slots.snapshotId.None? then Err(Missing(SnapshotId))
    else if slots.documentEpoch.None? then Err(Missing(DocumentEpoch))
    else if slots.targetRef.None? then Err(Missing(TargetRef))
    else if slots.action.None? then Err(NoAction)
    else
      var act := BrowserAct(
        slots.browserId.value, slots.snapshotId.value, slots.documentEpoch.value, slots.targetRef.value,
        slots.action.value, if slots.mode.Some? then slots.mode.value else Background);
      if IsWellFormed(act) then Ok(act) else Err(NotWellFormed)
  }

  function Parse(args: seq<string>): Result<BrowserAct, Error> {
    match FillSlots(args, EMPTY)
    case Err(e) => Err(e)
    case Ok(slots) => Assemble(slots)
  }

  // ----- The parser as it is written -----

  method RequiredFlagValue(args: seq<string>, i: nat, flag: Flag) returns (value: Result<string, Error>, i': nat)
    requires i < |args|
    ensures if i + 1 < |args| && !("--" <= args[i + 1]) then value == Ok(args[i + 1]) && i' == i + 2
            else value == Err(NeedsValue(flag))
  {
    i' := i + 1;
    if i' == |args| || LooksLikeFlag(args[i']) {
      return Err(NeedsValue(flag)), i';
    }
    value, i' := Ok(args[i']), i' + 1;
  }

  method ParseStringFlag(args: seq<string>, i: nat, slot: Option<string>, flag: Flag)
    returns (value: Result<string, Error>, i': nat)
    requires i < |args|
    ensures if slot.Some? then value == Err(Duplicate(flag))
            else if i + 1 < |args| && !("--" <= args[i + 1]) then value == Ok(args[i + 1]) && i' == i + 2
            else value == Err(NeedsValue(flag))
  {
    if slot.Some? {
      return Err(Duplicate(flag)), i;
    }
    value, i' := RequiredFlagValue(args, i, flag);
  }

  method ParseBrowserAct(args: seq<string>) returns (r: Result<BrowserAct, Error>)
    ensures r == Parse(args)
  {
    var browserId: Option<string>, snapshotId: Option<string>, targetRef: Option<string> := None, None, None;
    var documentEpoch: Option<nat>, mode: Option<Mode>, action: Option<BrowserAction> := None, None, None;
    var i := 0;
    assert args[0..] == args;
    while i < |args|
      invariant i <= |args|
      invariant FillSlots(args, EMPTY) ==
        FillSlots(args[i..], Slots(browserId, snapshotId, documentEpoch, targetRef, mode, action))
      decreases |args| - i
    {
      assert args[i..][1..] == args[i + 1..];
      assert i + 2 <= |args| ==> args[i..][2..] == args[i + 2..];
      var found := FlagOf(args[i]);
      if found.None? {
        return Err(UnknownArgument(args[i]));
      }
      var value: Result<string, Error>;
      match found.value {
        case BrowserId =>
          value, i := ParseStringFlag(args, i, browserId, BrowserId);
          if value.Err? { return Err(value.error); }
          browserId := Some(value.value);
        case SnapshotId =>
          value, i := ParseStringFlag(args, i, snapshotId, SnapshotId);
          if value.Err? { return Err(value.error); }
          snapshotId := Some(value.value);
        case TargetRef =>
          value, i := ParseStringFlag(args, i, targetRef, TargetRef);
          if value.Err? { return Err(value.error); }
          targetRef := Some(value.value);
        case DocumentEpoch =>
          if documentEpoch.Some? { return Err(Duplicate(DocumentEpoch)); }
          value, i := RequiredFlagValue(args, i, DocumentEpoch);
          if value.Err? { return Err(value.error); }
          documentEpoch := ParseU64(value.value);
          if documentEpoch.None? { return Err(BadValue(DocumentEpoch)); }
        case ExecutionMode =>
          if mode.Some? { return Err(Duplicate(ExecutionMode)); }
          value, i := RequiredFlagValue(args, i, ExecutionMode);
          if value.Err? { return Err(value.error); }
          mode := ParseMode(value.value);
          if mode.None? { return Err(BadValue(ExecutionMode)); }
        case Act(kind) =>
          if TakesValue(Act(kind)) {
            value, i := RequiredFlagValue(args, i, Act(kind));
            if value.Err? { return Err(value.error); }
          } else {
            value, i := Ok(""), i + 1;
          }
          if action.Some? { return Err(SecondAction); }
          action := Some(BrowserAction(kind, value.value));
      }
    }
    r := Assemble(Slots(browserId, snapshotId, documentEpoch, targetRef, mode, action));
  }

  // ----- Groups -----

  /** A flag with its value; a flag that takes none carries the empty one. */
  datatype Group = Group(flag: Flag, value: string)

  function GroupWords(g: Group): seq<string> {
    if TakesValue(g.flag) then [NameOf(g.flag), g.value] else [NameOf(g.flag)]
  }

  predicate ValidGroup(g: Group) {
    && (if TakesValue(g.flag) then !LooksLikeFlag(g.value) else g.value == "")
    && Fits(g.flag, g.value)
  }

  function Flatten(gs: seq<Group>): seq<string> {
    if gs == [] then [] else GroupWords(gs[0]) + Flatten(gs[1..])
  }

  predicate AllValid(gs: seq<Group>) {
    forall g | g in gs :: ValidGroup(g)
  }

  /** All actions share one slot. */
  predicate SameSlot(f: Flag, g: Flag) {
    f == g || (f.Act? && g.Act?)
  }

  predicate DistinctSlots(gs: seq<Group>) {
    forall i, j | 0 <= i < j < |gs| :: !SameSlot(gs[i].flag, gs[j].flag)
  }

  function PutAll(slots: Slots, gs: seq<Group>): Slots
    requires AllValid(gs)
    decreases |gs|
  {
    assert gs != [] ==> gs[0] in gs;
    if gs == [] then slots else PutAll(Put(slots, gs[0].flag, gs[0].value), gs[1..])
  }

  lemma StepGroup(g: Group, rest: seq<string>, slots: Slots)
    requires ValidGroup(g)
    ensures Step(GroupWords(g) + rest, slots) ==
      if Taken(slots, g.flag) then Err(Refusal(g.flag)) else Ok((Put(slots, g.flag, g.value), rest))
  {
    FlagOfName(g.flag);
    var args := GroupWords(g) + rest;
    assert args[0] == NameOf(g.flag);
    assert args[|GroupWords(g)|..] == rest;
  }

  lemma PutTakes(slots: Slots, f: Flag, value: string, g: Flag)
    requires Fits(f, value)
    ensures Taken(Put(slots, f, value), g) <==> SameSlot(f, g) || Taken(slots, g)
  {}

  /** Groups for different free slots are all taken in. */
  lemma {:induction false} FillsGroups(gs: seq<Group>, rest: seq<string>, slots: Slots)
    requires AllValid(gs) && DistinctSlots(gs)
    requires forall g | g in gs :: !Taken(slots, g.flag)
    ensures FillSlots(Flatten(gs) + rest, slots) == FillSlots(rest, PutAll(slots, gs))
  {
    if gs == [] {
      assert [] + rest == rest;
    } else {
      var g := gs[0];
      var tail := gs[1..];
      assert Flatten(gs) + rest == GroupWords(g) + (Flatten(tail) + rest);
      StepGroup(g, Flatten(tail) + rest, slots);
      forall h | h in tail ensures !Taken(Put(slots, g.flag, g.value), h.flag) {
        PutTakes(slots, g.flag, g.value, h.flag);
        var j :| 0 <= j < |tail| && tail[j] == h;
        assert gs[j + 1] == h;
      }
      FillsGroups(tail, rest, Put(slots, g.flag, g.value));
    }
  }

  /** A group whose slot is taken, by an earlier group or before, refuses the whole line. */
  lemma {:induction false} RefusesGroups(gs: seq<Group>, rest: seq<string>, slots: Slots)
    requires AllValid(gs)
    requires !DistinctSlots(gs) || exists g | g in gs :: Taken(slots, g.flag)
    ensures FillSlots(Flatten(gs) + rest, slots).Err?
  {
    var g := gs[0];
    var tail := gs[1..];
    assert Flatten(gs) + rest == GroupWords(g) + (Flatten(tail) + rest);
    StepGroup(g, Flatten(tail) + rest, slots);
    if !Taken(slots, g.flag) {
      var next := Put(slots, g.flag, g.value);
      forall h ensures Taken(next, h) <==> SameSlot(g.flag, h) || Taken(slots, h) {
        PutTakes(slots, g.flag, g.value, h);
      }
      assert forall h | h in gs :: h == g || h in tail;
      RefusesGroups(tail, rest, next);
    }
  }

  /** A repeated value flag or a second action is refused, whatever follows. */
  lemma RepeatsAreRefused(gs: seq<Group>, rest: seq<string>)
    requires AllValid(gs) && !DistinctSlots(gs)
    ensures Parse(Flatten(gs) + rest).Err?
  {
    RefusesGroups(gs, rest, EMPTY);
  }

  // ----- Order -----

  /** The slots hold the groups' values and no others. */
  ghost predicate Reflects(slots: Slots, gs: seq<Group>)
    requires AllValid(gs)
  {
    && (forall g | g in gs :: Put(slots, g.flag, g.value) == slots)
    && (forall f | Taken(slots, f) :: exists g | g in gs :: SameSlot(g.flag, f))
  }

  lemma ReflectionIsUnique(s: Slots, s': Slots, gs: seq<Group>, gs': seq<Group>)
    requires AllValid(gs) && AllValid(gs') && Reflects(s, gs) && Reflects(s', gs')
    requires forall g :: g in gs <==> g in gs'
    ensures s == s'
  {
    SlotAgrees(s, s', gs, gs', BrowserId);
    SlotAgrees(s, s', gs, gs', SnapshotId);
    SlotAgrees(s, s', gs, gs', DocumentEpoch);
    SlotAgrees(s, s', gs, gs', TargetRef);
    SlotAgrees(s, s', gs, gs', ExecutionMode);
    SlotAgrees(s, s', gs, gs', Act(Click));
  }

  predicate Agree(s: Slots, s': Slots, flag: Flag) {
    match flag
    case BrowserId => s.browserId == s'.browserId
    case SnapshotId => s.snapshotId == s'.snapshotId
    case DocumentEpoch => s.documentEpoch == s'.documentEpoch
    case TargetRef => s.targetRef == s'.targetRef
    case ExecutionMode => s.mode == s'.mode
    case Act(_) => s.action == s'.action
  }

  lemma SlotAgrees(s: Slots, s': Slots, gs: seq<Group>, gs': seq<Group>, flag: Flag)
    requires AllValid(gs) && AllValid(gs') && Reflects(s, gs) && Reflects(s', gs')
    requires forall g :: g in gs <==> g in gs'
    ensures Agree(s, s', flag)
  {
    if Taken(s, flag) || Taken(s', flag) {
      var g :| g in gs && SameSlot(g.flag, flag);
      assert Put(s, g.flag, g.value) == s && Put(s', g.flag, g.value) == s';
    }
  }

  lemma PutAgain(slots: Slots, g: Group, h: Group)
    requires ValidGroup(g) && ValidGroup(h) && !SameSlot(g.flag, h.flag)
    requires Put(slots, h.flag, h.value) == slots
    ensures var next := Put(slots, g.flag, g.value); Put(next, h.flag, h.value) == next
  {}

  /** Groups for different slots are all there in the end. */
  lemma {:induction false} PutAllReflects(before: seq<Group>, gs: seq<Group>, slots: Slots)
    requires AllValid(before + gs) && DistinctSlots(before + gs)
    requires AllValid(before) && AllValid(gs) && Reflects(slots, before)
    ensures Reflects(PutAll(slots, gs), before + gs)
    decreases |gs|
  {
    if gs == [] {
      assert before + gs == before;
    } else {
      var g := gs[0];
      assert g in gs;
      var next := Put(slots, g.flag, g.value);
      var grown := before + [g];
      assert before + gs == grown + gs[1..];
      forall h | h in before ensures Put(next, h.flag, h.value) == next {
        var i :| 0 <= i < |before| && before[i] == h;
        assert (before + gs)[i] == h && (before + gs)[|before|] == g;
        PutAgain(slots, g, h);
      }
      forall f | Taken(next, f) ensures exists h | h in grown :: SameSlot(h.flag, f) {
        PutTakes(slots, g.flag, g.value, f);
        if SameSlot(g.flag, f) {
          assert g in grown;
        } else {
          var h :| h in before && SameSlot(h.flag, f);
          assert h in grown;
        }
      }
      PutAllReflects(grown, gs[1..], next);
    }
  }

  lemma FillOfGroups(gs: seq<Group>)
    requires AllValid(gs) && DistinctSlots(gs)
    ensures FillSlots(Flatten(gs), EMPTY) == Ok(PutAll(EMPTY, gs)) && Reflects(PutAll(EMPTY, gs), gs)
  {
    assert Flatten(gs) + [] == Flatten(gs);
    FillsGroups(gs, [], EMPTY);
    assert [] + gs == gs;
    PutAllReflects([], gs, EMPTY);
  }

  lemma PermutedSlotsAreDistinct(gs: seq<Group>, gs': seq<Group>)
    requires DistinctSlots(gs) && multiset(gs) == multiset(gs')
    ensures DistinctSlots(gs')
  {
    forall i, j | 0 <= i < j < |gs'| ensures !SameSlot(gs'[i].flag, gs'[j].flag) {
      var g, h := gs'[i], gs'[j];
      assert g in multiset(gs') && h in multiset(gs');
      assert g in gs && h in gs;
      if g == h {
        assert gs' == gs'[..j] + gs'[j..];
        assert g in gs'[..j] && g in gs'[j..];
        assert Distinct(gs);
        OccursOnce(gs, g);
      }
    }
  }

  /** The order of the flags does not matter: valid groups for different slots parse to the same
      result, or the same refusal, in any order. */
  lemma OrderDoesNotMatter(gs: seq<Group>, gs': seq<Group>)
    requires AllValid(gs) && DistinctSlots(gs) && multiset(gs) == multiset(gs')
    ensures Parse(Flatten(gs)) == Parse(Flatten(gs'))
  {
    PermutedSlotsAreDistinct(gs, gs');
    forall g ensures g in gs <==> g in gs' {
      assert g in gs <==> g in multiset(gs);
      assert g in gs' <==> g in multiset(gs');
    }
    FillOfGroups(gs);
    FillOfGroups(gs');
    ReflectionIsUnique(PutAll(EMPTY, gs), PutAll(EMPTY, gs'), gs, gs');
  }

  // ----- Exactly what is accepted -----

  lemma {:induction false} FilledFromGroups(args: seq<string>, slots: Slots) returns (gs: seq<Group>)
    requires FillSlots(args, slots).Ok?
    ensures AllValid(gs) && Flatten(gs) == args
    decreases |args|
  {
    if args == [] {
      gs := [];
    } else {
      var flag := FlagOf(args[0]).value;
      var g := Group(flag, if TakesValue(flag) then args[1] else "");
      var (next, rest) := Step(args, slots).value;
      assert args == GroupWords(g) + rest;
      var tail := FilledFromGroups(rest, next);
      gs := [g] + tail;
      assert gs[1..] == tail;
    }
  }

  /** A line is accepted exactly when it is valid groups for different slots, in some order, that
      make a complete and well-formed act; and the act is the one they make. */
  lemma AcceptedExactly(args: seq<string>, act: BrowserAct)
    ensures Parse(args) == Ok(act) <==>
      exists gs :: AllValid(gs) && DistinctSlots(gs) && Flatten(gs) == args
                   && Assemble(PutAll(EMPTY, gs)) == Ok(act)
  {
    if Parse(args) == Ok(act) {
      var gs := FilledFromGroups(args, EMPTY);
      assert Flatten(gs) + [] == args;
      if !DistinctSlots(gs) {
        RepeatsAreRefused(gs, []);
      }
      FillOfGroups(gs);
    }
    forall gs | AllValid(gs) && DistinctSlots(gs) && Flatten(gs) == args
                && Assemble(PutAll(EMPTY, gs)) == Ok(act)
      ensures Parse(args) == Ok(act)
    {
      FillOfGroups(gs);
    }
  }

  // ----- What a refusal says -----

  ghost predicate Mentions(gs: seq<Group>, flag: Flag) {
    exists g | g in gs :: g.flag == flag
  }

  ghost predicate HasAction(gs: seq<Group>) {
    exists g | g in gs :: g.flag.Act?
  }

  lemma ReflectedIsTaken(slots: Slots, gs: seq<Group>)
    requires AllValid(gs) && Reflects(slots, gs)
    ensures forall f :: Taken(slots, f) <==> if f.Act? then HasAction(gs) else Mentions(gs, f)
  {
    forall f ensures Taken(slots, f) <==> if f.Act? then HasAction(gs) else Mentions(gs, f) {
      if g :| g in gs && SameSlot(g.flag, f) {
        assert Put(slots, g.flag, g.value) == slots;
      }
    }
  }

  /** A line of valid groups for different slots is refused only for what it does not have, or for
      the act it makes. */
  lemma RefusalsSayWhatIsMissing(gs: seq<Group>)
    requires AllValid(gs) && DistinctSlots(gs)
    ensures var r := Parse(Flatten(gs));
      && (r.Err? ==> r.error.Missing? || r.error.NoAction? || r.error.NotWellFormed?)
      && (r.Err? && r.error.Missing? ==>
            !Mentions(gs, r.error.flag) && r.error.flag in [BrowserId, SnapshotId, DocumentEpoch, TargetRef])
      && (r.Err? && r.error.NoAction? ==> !HasAction(gs))
      && (r.Ok? || r.error.NotWellFormed? ==>
            && HasAction(gs) && Mentions(gs, BrowserId) && Mentions(gs, SnapshotId)
            && Mentions(gs, DocumentEpoch) && Mentions(gs, TargetRef))
  {
    FillOfGroups(gs);
    ReflectedIsTaken(PutAll(EMPTY, gs), gs);
    var slots := PutAll(EMPTY, gs);
    assert Taken(slots, BrowserId) <==> slots.browserId.Some?;
    assert Taken(slots, SnapshotId) <==> slots.snapshotId.Some?;
    assert Taken(slots, DocumentEpoch) <==> slots.documentEpoch.Some?;
    assert Taken(slots, TargetRef) <==> slots.targetRef.Some?;
    assert Taken(slots, Act(Click)) <==> slots.action.Some?;
  }

  lemma NamedFault(words: seq<string>, slots: Slots, flag: Flag)
    requires words != [] && words[0] == NameOf(flag)
    ensures
      var valued := !flag.Act? || flag.kind.Fill? || flag.kind.Select? || flag.kind.Press?;
      var r := FillSlots(words, slots);
      if !flag.Act? && Taken(slots, flag) then r == Err(Duplicate(flag))
      else if valued && (|words| == 1 || "--" <= words[1]) then r == Err(NeedsValue(flag))
      else if Taken(slots, flag) then r == Err(SecondAction)
      else if flag.DocumentEpoch? && ParseU64(words[1]).None? then r == Err(BadValue(flag))
      else flag.ExecutionMode? && words[1] != "background" && words[1] != "foreground" ==> r == Err(BadValue(flag))
  {
    FlagOfName(flag);
    assert |words| > 1 ==> (LooksLikeFlag(words[1]) <==> "--" <= words[1]);
  }

  /** The first word that cannot be taken decides the refusal, whatever follows. */
  lemma TheFirstFaultIsReported(gs: seq<Group>, flag: Flag, words: seq<string>)
    requires AllValid(gs) && DistinctSlots(gs) && words != []
    ensures (forall f :: NameOf(f) != words[0]) ==> Parse(Flatten(gs) + words) == Err(UnknownArgument(words[0]))
    ensures words[0] == NameOf(flag) ==>
      var valued := !flag.Act? || flag.kind.Fill? || flag.kind.Select? || flag.kind.Press?;
      var r := Parse(Flatten(gs) + words);
      if !flag.Act? && Mentions(gs, flag) then r == Err(Duplicate(flag))
      else if valued && (|words| == 1 || "--" <= words[1]) then r == Err(NeedsValue(flag))
      else if flag.Act? && HasAction(gs) then r == Err(SecondAction)
      else if flag.DocumentEpoch? && ParseU64(words[1]).None? then r == Err(BadValue(flag))
      else flag.ExecutionMode? && words[1] != "background" && words[1] != "foreground" ==> r == Err(BadValue(flag))
  {
    var slots := PutAll(EMPTY, gs);
    FillOfGroups(gs);
    FillsGroups(gs, words, EMPTY);
    ReflectedIsTaken(slots, gs);
    if words[0] == NameOf(flag) {
      NamedFault(words, slots, flag);
      assert Taken(slots, flag) <==> if flag.Act? then HasAction(gs) else Mentions(gs, flag);
    }
  }

  // ----- A whole line -----

  /** The words that ask for an action. */
  ghost function ActionWords(action: BrowserAction): seq<string> {
    match action.kind
    case Click => ["--click"]
    case Focus => ["--focus"]
    case Hover => ["--hover"]
    case Fill => ["--fill", action.value]
    case Select => ["--select", action.value]
    case Check => ["--check"]
    case Uncheck => ["--uncheck"]
    case Press => ["--press", action.value]
    case ScrollIntoView => ["--scroll-into-view"]
  }

  /** The words that ask for a mode, if any do. */
  ghost function ModeWords(mode: Option<Mode>): seq<string> {
    match mode
    case None => []
    case Some(Background) => ["--execution-mode", "background"]
    case Some(Foreground) => ["--execution-mode", "foreground"]
  }

  ghost function ModeGroups(mode: Option<Mode>): seq<Group> {
    match mode
    case None => []
    case Some(Background) => [Group(ExecutionMode, "background")]
    case Some(Foreground) => [Group(ExecutionMode, "foreground")]
  }

  ghost function IdGroups(browserId: string, snapshotId: string, epoch: string, targetRef: string): seq<Group> {
    [Group(BrowserId, browserId), Group(SnapshotId, snapshotId), Group(DocumentEpoch, epoch),
     Group(TargetRef, targetRef)]
  }

  /** A value that no one could take for a flag. */
  predicate IsPlain(value: string) {
    value == "" || value[0] != '-'
  }

  lemma OneGroup(g: Group)
    ensures Flatten([g]) == GroupWords(g)
  {
    assert [g][1..] == [] && GroupWords(g) + [] == GroupWords(g);
  }

  lemma FlattenCons(g: Group, gs: seq<Group>)
    ensures Flatten([g] + gs) == GroupWords(g) + Flatten(gs)
  {
    assert ([g] + gs)[1..] == gs;
  }

  lemma IdWords(browserId: string, snapshotId: string, epoch: string, targetRef: string, rest: seq<Group>)
    ensures Flatten(IdGroups(browserId, snapshotId, epoch, targetRef) + rest) ==
      ["--browser-id", browserId, "--snapshot-id", snapshotId, "--document-epoch", epoch, "--ref", targetRef]
      + Flatten(rest)
  {
    var b, s := Group(BrowserId, browserId), Group(SnapshotId, snapshotId);
    var e, t := Group(DocumentEpoch, epoch), Group(TargetRef, targetRef);
    FlattenCons(t, rest);
    FlattenCons(e, [t] + rest);
    FlattenCons(s, [e] + ([t] + rest));
    FlattenCons(b, [s] + ([e] + ([t] + rest)));
    assert IdGroups(browserId, snapshotId, epoch, targetRef) + rest == [b] + ([s] + ([e] + ([t] + rest)));
  }

  lemma TailWords(action: BrowserAction, mode: Option<Mode>)
    ensures Flatten([Group(Act(action.kind), action.value)] + ModeGroups(mode)) == ActionWords(action) + ModeWords(mode)
  {
    FlattenCons(Group(Act(action.kind), action.value), ModeGroups(mode));
    if mode.Some? {
      OneGroup(ModeGroups(mode)[0]);
    }
  }

  /** The groups of a whole line. */
  ghost function LineGroups(
      browserId: string, snapshotId: string, epoch: string, targetRef: string,
      action: BrowserAction, mode: Option<Mode>): seq<Group>
  {
    IdGroups(browserId, snapshotId, epoch, targetRef) + ([Group(Act(action.kind), action.value)] + ModeGroups(mode))
  }

  ghost predicate PlainLine(
      browserId: string, snapshotId: string, epoch: string, targetRef: string, action: BrowserAction)
  {
    && IsPlain(browserId) && IsPlain(snapshotId) && IsPlain(targetRef) && IsPlain(action.value)
    && (!(action.kind.Fill? || action.kind.Select? || action.kind.Press?) ==> action.value == "")
    && IsPlain(epoch) && ParseU64(epoch).Some?
  }

  lemma PlainIsNoFlag(value: string)
    requires IsPlain(value)
    ensures !LooksLikeFlag(value)
  {}

  lemma LineGroupsAreValid(
      browserId: string, snapshotId: string, epoch: string, targetRef: string,
      action: BrowserAction, mode: Option<Mode>)
    requires PlainLine(browserId, snapshotId, epoch, targetRef, action)
    ensures AllValid(LineGroups(browserId, snapshotId, epoch, targetRef, action, mode))
  {
    PlainIsNoFlag(browserId);
    PlainIsNoFlag(snapshotId);
    PlainIsNoFlag(epoch);
    PlainIsNoFlag(targetRef);
    PlainIsNoFlag(action.value);
    assert ValidGroup(Group(Act(action.kind), action.value));
    assert forall g | g in ModeGroups(mode) :: ValidGroup(g);
  }

  lemma LineGroupsAreDistinct(
      browserId: string, snapshotId: string, epoch: string, targetRef: string,
      action: BrowserAction, mode: Option<Mode>)
    ensures DistinctSlots(LineGroups(browserId, snapshotId, epoch, targetRef, action, mode))
  {
    var gs := LineGroups(browserId, snapshotId, epoch, targetRef, action, mode);
    assert gs[0].flag == BrowserId && gs[1].flag == SnapshotId && gs[2].flag == DocumentEpoch;
    assert gs[3].flag == TargetRef && gs[4].flag == Act(action.kind);
    assert mode.Some? ==> |gs| == 6 && gs[5].flag == ExecutionMode;
  }

  /** Slots that reflect a group have its value. */
  lemma HasGroup(slots: Slots, gs: seq<Group>, i: nat)
    requires AllValid(gs) && Reflects(slots, gs) && i < |gs|
    ensures var g := gs[i];
      match g.flag
      case BrowserId => slots.browserId == Some(g.value)
      case SnapshotId => slots.snapshotId == Some(g.value)
      case DocumentEpoch => slots.documentEpoch == ParseU64(g.value)
      case TargetRef => slots.targetRef == Some(g.value)
      case ExecutionMode => slots.mode == ParseMode(g.value)
      case Act(kind) => slots.action == Some(BrowserAction(kind, g.value))
  {
    assert gs[i] in gs;
    assert Put(slots, gs[i].flag, gs[i].value) == slots;
  }

  lemma NoMode(slots: Slots, gs: seq<Group>)
    requires AllValid(gs) && Reflects(slots, gs) && forall g | g in gs :: !g.flag.ExecutionMode?
    ensures slots.mode == None
  {
    assert !Taken(slots, ExecutionMode);
  }

  lemma LineWithoutMode(
      browserId: string, snapshotId: string, epoch: string, targetRef: string, action: BrowserAction)
    ensures forall g | g in LineGroups(browserId, snapshotId, epoch, targetRef, action, None) :: !g.flag.ExecutionMode?
  {}

  lemma PutLine(
      browserId: string, snapshotId: string, epoch: string, targetRef: string,
      action: BrowserAction, mode: Option<Mode>, slots: Slots)
    requires AllValid(LineGroups(browserId, snapshotId, epoch, targetRef, action, mode))
    requires Reflects(slots, LineGroups(browserId, snapshotId, epoch, targetRef, action, mode))
    ensures slots == Slots(Some(browserId), Some(snapshotId), ParseU64(epoch), Some(targetRef), mode, Some(action))
  {
    var gs := LineGroups(browserId, snapshotId, epoch, targetRef, action, mode);
    HasGroup(slots, gs, 0);
    HasGroup(slots, gs, 1);
    HasGroup(slots, gs, 2);
    HasGroup(slots, gs, 3);
    HasGroup(slots, gs, 4);
    if mode.Some? {
      HasGroup(slots, gs, 5);
    } else {
      LineWithoutMode(browserId, snapshotId, epoch, targetRef, action);
      NoMode(slots, gs);
    }
  }

  /** What a browser identity and an action's value may be. */
  ghost predicate MaySay(browserId: string, action: BrowserAction) {
    && 1 <= |browserId| <= 80
    && (forall c | c in browserId :: 'a' <= c <= 'z' || 'A' <= c <= 'Z' || '0' <= c <= '9' || c in "-_")
    && (action.kind.Fill? || action.kind.Select? ==> |action.value| <= 8192)
    && (action.kind.Select? ==> action.value != "")
    && (action.kind.Press? ==>
          action.value in
            ["Enter", "Escape", "Tab", " ", "ArrowUp", "ArrowDown", "ArrowLeft", "ArrowRight", "Backspace",
             "Delete", "Home", "End", "PageUp", "PageDown"])
  }

  lemma WellFormedExactly(act: BrowserAct)
    ensures IsWellFormed(act) <==> MaySay(act.browserId, act.action)
  {
    forall c: char ensures IsIdCharacter(c) <==> 'a' <= c <= 'z' || 'A' <= c <= 'Z' || '0' <= c <= '9' || c in "-_" {}
  }

  /** A line with every flag, word for word: the act has the values as they stand, the number the
      epoch's digits mean, the action its word asks for, and the background unless it says
      otherwise. It is refused exactly if the identity or the action's value may not be so. */
  lemma AWholeLineParses(
      browserId: string, snapshotId: string, epoch: nat, targetRef: string,
      action: BrowserAction, mode: Option<Mode>)
    requires epoch < 0x1_0000_0000_0000_0000 && PlainLine(browserId, snapshotId, Digits(epoch), targetRef, action)
    ensures var act := BrowserAct(
        browserId, snapshotId, epoch, targetRef, action, if mode.Some? then mode.value else Background);
      Parse(
        ["--browser-id", browserId, "--snapshot-id", snapshotId, "--document-epoch", Digits(epoch),
         "--ref", targetRef] + (ActionWords(action) + ModeWords(mode))) ==
      if MaySay(browserId, action) then Ok(act) else Err(NotWellFormed)
  {
    WellFormedExactly(
      BrowserAct(browserId, snapshotId, epoch, targetRef, action, if mode.Some? then mode.value else Background));
    var gs := LineGroups(browserId, snapshotId, Digits(epoch), targetRef, action, mode);
    IdWords(browserId, snapshotId, Digits(epoch), targetRef, [Group(Act(action.kind), action.value)] + ModeGroups(mode));
    TailWords(action, mode);
    LineGroupsAreValid(browserId, snapshotId, Digits(epoch), targetRef, action, mode);
    LineGroupsAreDistinct(browserId, snapshotId, Digits(epoch), targetRef, action, mode);
    FillOfGroups(gs);
    PutLine(browserId, snapshotId, Digits(epoch), targetRef, action, mode, PutAll(EMPTY, gs));
    EpochReads(epoch);
  }

  /** The epoch is a decimal number of 64 bits, with or without a plus sign. */
  lemma EpochReads(epoch: nat)
    ensures var read := if epoch < 0x1_0000_0000_0000_0000 then Some(epoch) else None;
      ParseU64(Digits(epoch)) == read && ParseU64("+" + Digits(epoch)) == read && IsPlain(Digits(epoch))
  {
    assert Digits(epoch)[0] in Digits(epoch);
    assert ("+" + Digits(epoch))[1..] == Digits(epoch);
  }
}
