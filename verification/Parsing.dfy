/**
 * The parser's stack machine (message/parse.rs): fields are placed on the tape one after the
 * other. A group stays open until a field comes that does not belong to it; only then are its span
 * and count written.
 */
module Parsing {
  import opened Tape
  import opened Groups

  datatype Result<+T> = Ok(value: T) | Err(reason: nat)

  const OUT_OF_REQUIRED_ORDER := 14
  const GROUP_FIELDS_OUT_OF_ORDER := 15
  const INCORRECT_COUNT := 16

  // ---------------------------------------------------------------------
  // The dictionary's tables
  // ---------------------------------------------------------------------

  /** A group's tables: the tag its instances begin with, their members, and the groups among those. */
  datatype GroupDef = GroupDef(delimiter: nat, members: set<nat>, nested: map<nat, nat>)

  /** The tables for one message type; `dataOf` gives the data field each Length measures. */
  datatype Dict = Dict(groups: nat -> GroupDef, headerGroups: map<nat, nat>, bodyGroups: map<nat, nat>,
                       headerTags: set<nat>, trailerTags: set<nat>, dataOf: map<nat, nat>)

  /** Where a tag is looked up: in a region, or in an instance of a group. */
  datatype Context = Top(header: bool) | Within(group: nat)

  /** The group a tag opens there, if it is a NumInGroup. */
  function Opened(dict: Dict, ctx: Context, tag: nat): Option<nat> {
    var groups := match ctx
      case Top(header) => if header then dict.headerGroups else dict.bodyGroups
      case Within(g) => dict.groups(g).nested;
    if tag in groups then Some(groups[tag]) else None
  }

  /** A tag that belongs to no instance of the group. */
  predicate Skips(dict: Dict, g: nat, tag: nat) {
    tag != dict.groups(g).delimiter && tag !in dict.groups(g).members
  }

  // ---------------------------------------------------------------------
  // The machine
  // ---------------------------------------------------------------------

  /** A field off the wire, and the number its value is, if it is one. */
  datatype Token = Token(entry: Entry, number: Option<nat>)

  /** The field that says how many instances a group has. */
  function CountToken(tag: nat, count: nat): Token {
    Token(Entry(tag, Field, 0, Wire, 0, 0, 0), Some(count))
  }

  /** An open group. */
  datatype Frame = Frame(group: nat, entry: nat, instance: Option<nat>, declared: nat, count: nat, depth: nat)

  datatype Machine = Machine(tape: seq<Entry>, stack: seq<Frame>, region: Region, bodyStart: nat, trailerStart: nat)
  {
    /** Open groups have entries. */
    predicate Sound() {
      forall k :: 0 <= k < |stack| ==>
        stack[k].entry < |tape| && (stack[k].instance.Some? ==> stack[k].instance.value < |tape|)
    }

    function Innermost(): Frame
      requires stack != []
    {
      stack[|stack| - 1]
    }

    function Context(): Context {
      if stack == [] then Top(region == Header) else Within(Innermost().group)
    }

    function Depth(): nat {
      if stack == [] then 0 else Innermost().depth + 1
    }
  }

  /** The innermost group's instance ends here. */
  function InstanceClosed(m: Machine): (r: Machine)
    requires m.Sound()
    ensures r.Sound() && |r.tape| == |m.tape| && r == m.(tape := r.tape)
  {
    if m.stack != [] && m.Innermost().instance.Some? then
      var i := m.Innermost().instance.value;
      m.(tape := m.tape[i := m.tape[i].(len := |m.tape| - i)])
    else m
  }

  /** The innermost group ends here: it must have as many instances as it declared. */
  function GroupClosed(m: Machine): (r: Result<Machine>)
    requires m.Sound() && m.stack != []
    ensures r.Ok? ==> r.value.Sound() && |r.value.tape| == |m.tape| && r.value.stack == m.stack[..|m.stack| - 1]
    ensures r.Ok? ==> r.value == m.(tape := r.value.tape, stack := r.value.stack)
  {
    var f := m.Innermost();
    var tape := InstanceClosed(m).tape;
    if f.count != f.declared then Err(INCORRECT_COUNT)
    else Ok(m.(tape := tape[f.entry := tape[f.entry].(len := |tape| - f.entry, off := f.count)],
               stack := m.stack[..|m.stack| - 1]))
  }

  /** The innermost group's delimiter came: another instance of it starts. */
  function InstanceStarted(m: Machine): (r: Result<Machine>)
    requires m.Sound() && m.stack != []
    ensures r.Ok? ==> r.value.Sound() && |r.value.stack| == |m.stack|
    ensures r.Ok? ==> r.value == m.(tape := r.value.tape, stack := r.value.stack)
  {
    var f, tape := m.Innermost(), InstanceClosed(m).tape;
    if f.count == f.declared then Err(INCORRECT_COUNT)
    else
      var f' := f.(count := f.count + 1, instance := Some(|tape|));
      Ok(m.(tape := tape + [INSTANCE.(depth := f.depth + 1)], stack := m.stack[..|m.stack| - 1] + [f']))
  }

  /** Groups a field does not belong to are closed; its delimiter starts an instance. */
  function Settled(dict: Dict, m: Machine, tag: nat): (r: Result<Machine>)
    requires m.Sound()
    ensures r.Ok? ==> r.value.Sound() && r.value == m.(tape := r.value.tape, stack := r.value.stack)
    decreases |m.stack|
  {
    if m.stack == [] then Ok(m)
    else
      var def := dict.groups(m.Innermost().group);
      if tag == def.delimiter then InstanceStarted(m)
      else if tag in def.members then
        if m.Innermost().instance.None? then Err(GROUP_FIELDS_OUT_OF_ORDER) else Ok(m)
      else
        match GroupClosed(m)
        case Err(e) => Err(e)
        case Ok(m') => Settled(dict, m', tag)
  }

  /** The header's reserved slots. */
  function GapSlots(): (s: seq<Entry>)
    ensures |s| == HEADER_GAP
  {
    [GapOf(HEADER_GAP)] + Unused(HEADER_GAP - 1)
  }

  /** Header, then body, then trailer: the region a field outside groups is in. */
  function RegionEntered(dict: Dict, m: Machine, tag: nat): (r: Result<Machine>)
    requires m.stack == []
    ensures r.Ok? ==> r.value.stack == []
  {
    var header, trailer := tag in dict.headerTags, tag in dict.trailerTags;
    match m.region
    case Header =>
      if header then Ok(m)
      else
        var tape := m.tape + GapSlots();
        if trailer then Ok(m.(tape := tape, bodyStart := |tape|, trailerStart := |tape|, region := Trailer))
        else Ok(m.(tape := tape, bodyStart := |tape|, region := Body))
    case Body =>
      if header then Err(OUT_OF_REQUIRED_ORDER)
      else if trailer then Ok(m.(trailerStart := |m.tape|, region := Trailer))
      else Ok(m)
    case Trailer =>
      if trailer then Ok(m) else Err(OUT_OF_REQUIRED_ORDER)
  }

  /** The field goes on the tape; a NumInGroup opens its group, unless it says there are no instances. */
  function Placed(dict: Dict, m: Machine, t: Token): (r: Result<Machine>)
    requires m.Sound()
    ensures r.Ok? ==> r.value.Sound()
  {
    var group := if t.entry.kind.Field? then Opened(dict, m.Context(), t.entry.tag) else None;
    match group
    case None => Ok(m.(tape := m.tape + [t.entry.(depth := m.Depth())]))
    case Some(g) =>
      match t.number
      case None => Err(INCORRECT_COUNT)
      case Some(declared) =>
        var m' := m.(tape := m.tape + [GroupEntry(t.entry.tag).(depth := m.Depth())]);
        if declared == 0 then Ok(m')
        else Ok(m'.(stack := m.stack + [Frame(g, |m.tape|, None, declared, 0, m.Depth())]))
  }

  /** One field: settled, its region entered if it is in no group, and placed. */
  function Pushed(dict: Dict, m: Machine, t: Token): (r: Result<Machine>)
    requires m.Sound()
    ensures r.Ok? ==> r.value.Sound()
  {
    match Settled(dict, m, t.entry.tag)
    case Err(e) => Err(e)
    case Ok(m1) =>
      if m1.stack != [] then Placed(dict, m1, t)
      else
        match RegionEntered(dict, m1, t.entry.tag)
        case Err(e) => Err(e)
        case Ok(m2) => Placed(dict, m2, t)
  }

  function Ran(dict: Dict, m: Machine, ts: seq<Token>): (r: Result<Machine>)
    requires m.Sound()
    ensures r.Ok? ==> r.value.Sound()
    decreases |ts|
  {
    if ts == [] then Ok(m)
    else
      match Pushed(dict, m, ts[0])
      case Err(e) => Err(e)
      case Ok(m') => Ran(dict, m', ts[1..])
  }

  /** Groups are closed until no more than `level` are open. */
  function ClosedTo(m: Machine, level: nat): (r: Result<Machine>)
    requires m.Sound()
    ensures r.Ok? ==> r.value.Sound() && |r.value.tape| == |m.tape|
    ensures r.Ok? ==> r.value == m.(tape := r.value.tape, stack := r.value.stack)
    ensures r.Ok? && level <= |m.stack| ==> r.value.stack == m.stack[..level]
    decreases |m.stack|
  {
    if |m.stack| <= level then Ok(m)
    else
      match GroupClosed(m)
      case Err(e) => Err(e)
      case Ok(m') =>
        assert level <= |m'.stack| ==> m'.stack[..level] == m.stack[..level];
        ClosedTo(m', level)
  }

  /** The regions that never came are empty, and the header has its gap. */
  function Finished(m: Machine): Machine {
    match m.region
    case Header =>
      var tape := m.tape + GapSlots();
      m.(tape := tape, bodyStart := |tape|, trailerStart := |tape|)
    case Body => m.(trailerStart := |m.tape|)
    case Trailer => m
  }

  const EMPTY := Machine([], [], Header, 0, 0)

  /** Parsing the fields of a message. */
  function Parsed(dict: Dict, ts: seq<Token>): Result<Machine> {
    match Ran(dict, EMPTY, ts)
    case Err(e) => Err(e)
    case Ok(m) =>
      match ClosedTo(m, 0)
      case Err(e) => Err(e)
      case Ok(c) => Ok(Finished(c))
  }

  // ---------------------------------------------------------------------
  // Running on
  // ---------------------------------------------------------------------

  function Then(dict: Dict, r: Result<Machine>, ts: seq<Token>): Result<Machine>
    requires r.Ok? ==> r.value.Sound()
  {
    match r
    case Err(e) => Err(e)
    case Ok(m) => Ran(dict, m, ts)
  }

  lemma {:induction false} RanOn(dict: Dict, m: Machine, a: seq<Token>, b: seq<Token>)
    requires m.Sound()
    ensures Ran(dict, m, a + b) == Then(dict, Ran(dict, m, a), b)
    decreases |a|
  {
    if a == [] {
      assert a + b == b;
    } else {
      assert (a + b)[1..] == a[1..] + b;
      match Pushed(dict, m, a[0]) {
        case Err(_) =>
        case Ok(m') => RanOn(dict, m', a[1..], b);
      }
    }
  }

  function CloseThen(r: Result<Machine>, level: nat): Result<Machine>
    requires r.Ok? ==> r.value.Sound()
  {
    match r
    case Err(e) => Err(e)
    case Ok(m) => ClosedTo(m, level)
  }

  lemma {:induction false} ClosedThrough(m: Machine, middle: nat, level: nat)
    requires m.Sound() && level <= middle
    ensures ClosedTo(m, level) == CloseThen(ClosedTo(m, middle), level)
    decreases |m.stack|
  {
    if |m.stack| > middle {
      match GroupClosed(m) {
        case Err(_) =>
        case Ok(m') => ClosedThrough(m', middle, level);
      }
    }
  }

  /** None of the groups open above a level has the tag. */
  predicate NoneTakes(dict: Dict, m: Machine, level: nat, tag: nat) {
    forall k :: level <= k < |m.stack| ==> Skips(dict, m.stack[k].group, tag)
  }

  /** A field that belongs to none of the groups open above a level closes them. */
  lemma {:induction false} SettledThrough(dict: Dict, m: Machine, level: nat, tag: nat)
    requires m.Sound() && level <= |m.stack| && NoneTakes(dict, m, level, tag)
    ensures Settled(dict, m, tag)
            == match ClosedTo(m, level) { case Err(e) => Err(e) case Ok(c) => Settled(dict, c, tag) }
    decreases |m.stack|
  {
    if |m.stack| > level {
      assert Skips(dict, m.stack[|m.stack| - 1].group, tag);
      match GroupClosed(m) {
        case Err(_) =>
        case Ok(m') => SettledThrough(dict, m', level, tag);
      }
    }
  }

  // ---------------------------------------------------------------------
  // Lengths and data
  // ---------------------------------------------------------------------

  /** A Length is followed by the data field it measures, and data by nothing else's Length. */
  predicate WellPaired(dict: Dict, ts: seq<Token>) {
    && (forall i :: 0 <= i < |ts| && ts[i].entry.kind.DataLen? ==>
          && i + 1 < |ts| && ts[i + 1].entry.kind.Data?
          && ts[i].entry.tag in dict.dataOf && ts[i + 1].entry.tag == dict.dataOf[ts[i].entry.tag])
    && (forall i :: 0 <= i < |ts| && ts[i].entry.kind.Data? ==> i > 0 && ts[i - 1].entry.kind.DataLen?)
  }

  /** Wherever the dictionary has a Length, it has the data field too: in the same region, and in the same groups. */
  ghost predicate PairsTogether(dict: Dict) {
    forall l :: l in dict.dataOf ==>
      var d := dict.dataOf[l];
      && (l in dict.headerTags <==> d in dict.headerTags)
      && (l in dict.trailerTags <==> d in dict.trailerTags)
      && forall g :: !Skips(dict, g, l) ==> d != dict.groups(g).delimiter && d in dict.groups(g).members
  }
}
