/** Supply stacks (day-05): a drawing of crate stacks, a blank line, and a
    list of crane instructions "move N from A to B". Stacks are numbered
    from 1; each stack is stored top crate first. Part 1's crane moves
    crates one at a time, part 2's moves a whole batch at once; the answer
    is the top crate of every stack, left to right. */
module SupplyStacks {
  import opened Common
  import opened Text

  /** One crane instruction (the source's `Instruction`). */
  datatype Instruction = Instruction(amount: nat, from: nat, to: nat)

  /** The ways the program aborts: input the parsers reject
      (`finish().unwrap()`), a stack number that is 0 or past the last
      stack (`from - 1` underflowing, or an index out of bounds), popping an
      empty stack ("No crate available"), and an empty stack at the end
      ("No crate in stack"). */
  datatype Abort = Malformed | BadStackIndex | NoCrateAvailable | NoCrateInStack

  /** The stacks, each top first (`Vec<VecDeque<char>>`). */
  type Stacks = seq<seq<char>>

  /** 1-based stack number `k` names one of the `n` stacks. */
  predicate ValidStack(k: nat, n: nat)
  {
    1 <= k <= n
  }

  // ---------------------------------------------------------------------
  // The two cranes, as closed forms of what one instruction does

  /** Part 1's crane: `amount` times, pop the top of stack `from` and push
      it on stack `to`. The crates arrive in reverse order, except that a
      move onto the same stack puts each crate straight back. */
  function MoveOneAtATime(stacks: Stacks, ins: Instruction): (r: Result<Stacks, Abort>)
    ensures r.Ok? ==> |r.value| == |stacks|
  {
    if ins.amount == 0 then Ok(stacks)
    else if !ValidStack(ins.from, |stacks|) then Err(BadStackIndex)
    else if stacks[ins.from - 1] == [] then Err(NoCrateAvailable)
    else if !ValidStack(ins.to, |stacks|) then Err(BadStackIndex)
    else if ins.from == ins.to then Ok(stacks)
    else if |stacks[ins.from - 1]| < ins.amount then Err(NoCrateAvailable)
    else
      var source := stacks[ins.from - 1];
      var taken := stacks[ins.from - 1 := source[ins.amount..]];
      Ok(taken[ins.to - 1 := Reverse(source[..ins.amount]) + taken[ins.to - 1]])
  }

  /** Part 2's crane: the top `amount` crates of stack `from` go on top of
      stack `to` as one batch, keeping their order. */
  function MoveBatch(stacks: Stacks, ins: Instruction): (r: Result<Stacks, Abort>)
    ensures r.Ok? ==> |r.value| == |stacks|
  {
    if ins.amount == 0 then Ok(stacks)
    else if !ValidStack(ins.from, |stacks|) then Err(BadStackIndex)
    else if |stacks[ins.from - 1]| < ins.amount then Err(NoCrateAvailable)
    else if !ValidStack(ins.to, |stacks|) then Err(BadStackIndex)
    else
      var source := stacks[ins.from - 1];
      var taken := stacks[ins.from - 1 := source[ins.amount..]];
      Ok(taken[ins.to - 1 := source[..ins.amount] + taken[ins.to - 1]])
  }

  /** Which crane a run uses. */
  datatype Crane = OneAtATime | Batch

  function Move(crane: Crane, stacks: Stacks, ins: Instruction): (r: Result<Stacks, Abort>)
    ensures r.Ok? ==> |r.value| == |stacks|
  {
    match crane
    case OneAtATime => MoveOneAtATime(stacks, ins)
    case Batch => MoveBatch(stacks, ins)
  }

  /** The instructions carried out in order, stopping at the first abort. */
  function Run(crane: Crane, stacks: Stacks, instructions: seq<Instruction>): (r: Result<Stacks, Abort>)
    ensures r.Ok? ==> |r.value| == |stacks|
    decreases instructions
  {
    if instructions == [] then Ok(stacks)
    else
      match Move(crane, stacks, instructions[0])
      case Err(e) => Err(e)
      case Ok(next) => Run(crane, next, instructions[1..])
  }

  /** When each crane's instruction goes through. Both need real stack
      numbers (once anything moves) and enough crates, except that part 1's
      crane moving onto the same stack only needs one crate. */
  lemma MoveSucceeds(stacks: Stacks, ins: Instruction)
    ensures MoveOneAtATime(stacks, ins).Ok? <==>
      ins.amount == 0 ||
      (ValidStack(ins.from, |stacks|) && ValidStack(ins.to, |stacks|) &&
       |stacks[ins.from - 1]| >= (if ins.from == ins.to then 1 else ins.amount))
    ensures MoveBatch(stacks, ins).Ok? <==>
      ins.amount == 0 ||
      (ValidStack(ins.from, |stacks|) && ValidStack(ins.to, |stacks|) &&
       |stacks[ins.from - 1]| >= ins.amount)
  {
  }

  /** The effect of a successful move between two different stacks: the
      source loses its top `amount` crates, the destination gains them on
      top (reversed for part 1, in order for part 2), and every other stack
      is left alone. */
  lemma MoveEffect(crane: Crane, stacks: Stacks, ins: Instruction)
    requires Move(crane, stacks, ins).Ok?
    requires ins.amount > 0 && ins.from != ins.to
    ensures ValidStack(ins.from, |stacks|) && ValidStack(ins.to, |stacks|)
    ensures ins.amount <= |stacks[ins.from - 1]|
    ensures Move(crane, stacks, ins).value[ins.from - 1] == stacks[ins.from - 1][ins.amount..]
    ensures Move(crane, stacks, ins).value[ins.to - 1] ==
      (if crane == OneAtATime then Reverse(stacks[ins.from - 1][..ins.amount])
       else stacks[ins.from - 1][..ins.amount]) + stacks[ins.to - 1]
    ensures forall k :: 0 <= k < |stacks| && k != ins.from - 1 && k != ins.to - 1 ==>
      Move(crane, stacks, ins).value[k] == stacks[k]
  {
  }

  /** Moving every crate of a stack to another one goes through and
      leaves it empty. */
  lemma MoveWholeStack(crane: Crane, stacks: Stacks, ins: Instruction)
    requires ValidStack(ins.from, |stacks|) && ValidStack(ins.to, |stacks|) && ins.from != ins.to
    requires ins.amount == |stacks[ins.from - 1]|
    ensures Move(crane, stacks, ins).Ok? && Move(crane, stacks, ins).value[ins.from - 1] == []
  {
    MoveSucceeds(stacks, ins);
    if ins.amount > 0 {
      MoveEffect(crane, stacks, ins);
    }
  }

  /** Moving a stack onto itself changes nothing, with either crane. */
  lemma MoveOntoItself(crane: Crane, stacks: Stacks, ins: Instruction)
    requires Move(crane, stacks, ins).Ok?
    requires ins.from == ins.to
    ensures Move(crane, stacks, ins).value == stacks
  {
    if crane == Batch && ins.amount > 0 {
      var source := stacks[ins.from - 1];
      assert source[..ins.amount] + source[ins.amount..] == source;
    }
  }

  /** A single crate moves the same way whichever crane carries it. */
  lemma SingleCrateCranesAgree(stacks: Stacks, ins: Instruction)
    requires ins.amount == 1
    ensures MoveOneAtATime(stacks, ins) == MoveBatch(stacks, ins)
  {
    if MoveBatch(stacks, ins).Ok? && ins.from == ins.to {
      MoveOntoItself(Batch, stacks, ins);
    }
    if MoveBatch(stacks, ins).Ok? && ins.from != ins.to {
      var source := stacks[ins.from - 1];
      assert Reverse(source[..1]) == source[..1];
    }
  }

  // ---------------------------------------------------------------------
  // No crate is lost or made up

  /** Every crate on the stacks, counted with multiplicity. */
  function Crates(stacks: Stacks): multiset<char>
  {
    if stacks == [] then multiset{} else multiset(stacks[0]) + Crates(stacks[1..])
  }

  /** Replacing stack `k` by `s` trades its crates for those of `s`
      (stated crate by crate, as counts). */
  lemma {:induction false} CratesUpdate(stacks: Stacks, k: nat, s: seq<char>)
    requires k < |stacks|
    ensures forall x :: Crates(stacks[k := s])[x] + multiset(stacks[k])[x] == Crates(stacks)[x] + multiset(s)[x]
  {
    var updated := stacks[k := s];
    if k == 0 {
      assert updated[1..] == stacks[1..];
    } else {
      assert updated[0] == stacks[0];
      assert updated[1..] == stacks[1..][k - 1 := s];
      CratesUpdate(stacks[1..], k - 1, s);
    }
  }

  /** Taking `top` off stack `f` and putting `moved`, the same crates in
      any order, onto stack `t` keeps the crates. */
  lemma TransferConserves(stacks: Stacks, f: nat, t: nat, top: seq<char>, rest: seq<char>, moved: seq<char>)
    requires f < |stacks| && t < |stacks| && f != t
    requires stacks[f] == top + rest && multiset(moved) == multiset(top)
    ensures Crates(stacks[f := rest][t := moved + stacks[t]]) == Crates(stacks)
  {
    var taken := stacks[f := rest];
    assert taken[t] == stacks[t];
    var result := taken[t := moved + stacks[t]];
    CratesUpdate(stacks, f, rest);
    CratesUpdate(taken, t, moved + stacks[t]);
    forall x
      ensures Crates(result)[x] == Crates(stacks)[x]
    {
      assert multiset(stacks[f])[x] == multiset(top)[x] + multiset(rest)[x];
      assert multiset(moved + stacks[t])[x] == multiset(moved)[x] + multiset(stacks[t])[x];
    }
  }

  /** A move keeps the same crates, only rearranged. */
  lemma MoveConserves(crane: Crane, stacks: Stacks, ins: Instruction)
    requires Move(crane, stacks, ins).Ok?
    ensures Crates(Move(crane, stacks, ins).value) == Crates(stacks)
  {
    if ins.from == ins.to {
      MoveOntoItself(crane, stacks, ins);
    } else if ins.amount > 0 {
      var source := stacks[ins.from - 1];
      var rest, top := source[ins.amount..], source[..ins.amount];
      var moved := if crane == OneAtATime then Reverse(top) else top;
      assert Move(crane, stacks, ins).value == stacks[ins.from - 1 := rest][ins.to - 1 := moved + stacks[ins.to - 1]];
      ReversePermutes(top);
      assert source == top + rest;
      TransferConserves(stacks, ins.from - 1, ins.to - 1, top, rest, moved);
    }
  }

  /** A whole run keeps the same crates and the same number of stacks. */
  lemma {:induction false} RunConserves(crane: Crane, stacks: Stacks, instructions: seq<Instruction>)
    requires Run(crane, stacks, instructions).Ok?
    ensures Crates(Run(crane, stacks, instructions).value) == Crates(stacks)
    decreases instructions
  {
    if instructions != [] {
      MoveConserves(crane, stacks, instructions[0]);
      RunConserves(crane, Move(crane, stacks, instructions[0]).value, instructions[1..]);
    }
  }

  /** Running two lists of instructions one after the other. */
  lemma {:induction false} RunAppend(crane: Crane, stacks: Stacks, first: seq<Instruction>, second: seq<Instruction>)
    ensures Run(crane, stacks, first + second) ==
      match Run(crane, stacks, first)
      case Err(e) => Err(e)
      case Ok(middle) => Run(crane, middle, second)
    decreases first
  {
    if first == [] {
      assert first + second == second;
    } else {
      assert (first + second)[0] == first[0];
      assert (first + second)[1..] == first[1..] + second;
      match Move(crane, stacks, first[0])
      case Err(e) =>
      case Ok(next) => RunAppend(crane, next, first[1..], second);
    }
  }

  // ---------------------------------------------------------------------
  // The top crates

  /** The top crate of every stack, left to right (`top_crates`). */
  function TopCrates(stacks: Stacks): (r: Result<string, Abort>)
    ensures r.Ok? <==> forall k :: 0 <= k < |stacks| ==> stacks[k] != []
    ensures r.Err? ==> r.error == NoCrateInStack
    ensures r.Ok? ==> |r.value| == |stacks|
    ensures r.Ok? ==> forall k :: 0 <= k < |stacks| ==> r.value[k] == stacks[k][0]
  {
    if stacks == [] then Ok([])
    else if stacks[0] == [] then Err(NoCrateInStack)
    else
      match TopCrates(stacks[1..])
      case Err(e) => Err(e)
      case Ok(rest) => Ok([stacks[0][0]] + rest)
  }

  // ---------------------------------------------------------------------
  // The cranes at work on the vector of stacks

  /** Part 1's crane between two different stacks, after `n` of its
      crates have moved. */
  ghost function OneAtATimeAfter(start: Stacks, from: nat, to: nat, n: nat): Stacks
    requires from < |start| && to < |start| && n <= |start[from]|
  {
    start[from := start[from][n..]][to := Reverse(start[from][..n]) + start[to]]
  }

  /** One more crate popped from `from` and pushed on `to`. */
  lemma OneAtATimeStep(start: Stacks, from: nat, to: nat, n: nat)
    requires from < |start| && to < |start| && from != to && n < |start[from]|
    ensures var current := OneAtATimeAfter(start, from, to, n);
      var popped := current[from := current[from][1..]];
      current[from] != [] &&
      popped[to := Reverse(current[from][..1]) + popped[to]] == OneAtATimeAfter(start, from, to, n + 1)
  {
    var source := start[from];
    var current := OneAtATimeAfter(start, from, to, n);
    assert current[from] == source[n..];
    assert source[..n + 1] == source[..n] + [source[n]];
    ReverseSnoc(source[..n], source[n]);
    assert source[n..][1..] == source[n + 1..];
    assert Reverse(current[from][..1]) == [source[n]] by {
      assert current[from][..1] == [source[n]];
      ReverseSnoc([], source[n]);
    }
    var popped := current[from := current[from][1..]];
    var after := OneAtATimeAfter(start, from, to, n + 1);
    assert popped[to] == Reverse(source[..n]) + start[to];
    assert [source[n]] + popped[to] == Reverse(source[..n + 1]) + start[to];
    forall k | 0 <= k < |start|
      ensures popped[to := [source[n]] + popped[to]][k] == after[k]
    {
    }
  }

  /** The single-crate move that part 1's inner loop repeats. */
  function TopCrateMove(ins: Instruction): (r: Instruction)
    ensures r.amount == 1 && r.from == ins.from && r.to == ins.to
  {
    Instruction(1, ins.from, ins.to)
  }

  /** `n` single-crate moves from `ins.from` to `ins.to`, one after the
      other, stopping at the first abort. */
  function Repeat(stacks: Stacks, ins: Instruction, n: nat): Result<Stacks, Abort>
  {
    if n == 0 then Ok(stacks)
    else
      match Repeat(stacks, ins, n - 1)
      case Err(e) => Err(e)
      case Ok(current) => MoveOneAtATime(current, TopCrateMove(ins))
  }

  /** Part 1's closed form is what its loop does: moving `n` crates is `n`
      single-crate moves. */
  lemma {:induction false} MoveOneAtATimeIsRepeated(stacks: Stacks, ins: Instruction, n: nat)
    ensures Repeat(stacks, ins, n) == MoveOneAtATime(stacks, Instruction(n, ins.from, ins.to))
  {
    if n > 1 {
      MoveOneAtATimeIsRepeated(stacks, ins, n - 1);
      var previous := Instruction(n - 1, ins.from, ins.to);
      if MoveOneAtATime(stacks, previous).Ok? && ins.from != ins.to && n - 1 < |stacks[ins.from - 1]| {
        OneAtATimeStep(stacks, ins.from - 1, ins.to - 1, n - 1);
      }
    }
  }

  /** Once a run of single-crate moves aborts, later ones change nothing. */
  lemma {:induction false} RepeatStops(stacks: Stacks, ins: Instruction, n: nat, m: nat)
    requires n <= m && Repeat(stacks, ins, n).Err?
    ensures Repeat(stacks, ins, m) == Repeat(stacks, ins, n)
    decreases m
  {
    if n < m {
      RepeatStops(stacks, ins, n, m - 1);
    }
  }

  /** The body of part 1's inner loop: pop the top crate of stack `from`
      and push it on stack `to`. */
  method MoveTopCrate(crates: array<seq<char>>, from: nat, to: nat) returns (r: Result<(), Abort>)
    modifies crates
    ensures r.Ok? <==> MoveOneAtATime(old(crates[..]), Instruction(1, from, to)).Ok?
    ensures r.Ok? ==> crates[..] == MoveOneAtATime(old(crates[..]), Instruction(1, from, to)).value
    ensures r.Err? ==> r.error == MoveOneAtATime(old(crates[..]), Instruction(1, from, to)).error
  {
    if !ValidStack(from, crates.Length) {
      return Err(BadStackIndex);
    }
    if crates[from - 1] == [] {
      return Err(NoCrateAvailable);
    }
    ghost var start := crates[..];
    ghost var source := crates[from - 1];
    var c := crates[from - 1][0];
    crates[from - 1] := crates[from - 1][1..];
    if !ValidStack(to, crates.Length) {
      return Err(BadStackIndex);
    }
    crates[to - 1] := [c] + crates[to - 1];
    if from == to {
      assert [c] + source[1..] == source;
    } else {
      assert source[..1] == [c];
      ReverseSnoc([], c);
      var taken := start[from - 1 := source[1..]];
      var moved := taken[to - 1 := Reverse(source[..1]) + taken[to - 1]];
      assert forall k :: 0 <= k < crates.Length ==> crates[k] == moved[k];
      assert crates[..] == moved;
    }
    r := Ok(());
  }

  /** Part 1's crane carrying out one instruction in place. */
  method MoveOneAtATimeIn(crates: array<seq<char>>, ins: Instruction) returns (r: Result<(), Abort>)
    modifies crates
    ensures r.Ok? <==> MoveOneAtATime(old(crates[..]), ins).Ok?
    ensures r.Ok? ==> crates[..] == MoveOneAtATime(old(crates[..]), ins).value
    ensures r.Err? ==> r.error == MoveOneAtATime(old(crates[..]), ins).error
  {
    ghost var start := crates[..];
    MoveOneAtATimeIsRepeated(start, ins, ins.amount);
    var n := 0;
    while n < ins.amount
      invariant 0 <= n <= ins.amount
      invariant Repeat(start, ins, n) == Ok(crates[..])
    {
      r := MoveTopCrate(crates, ins.from, ins.to);
      if r.Err? {
        RepeatStops(start, ins, n + 1, ins.amount);
        return;
      }
      n := n + 1;
    }
    r := Ok(());
  }

  /** Part 2's crane after lifting the top `n` crates of stack `from`
      (0-based) onto its temporary stack. */
  ghost function Lifted(start: Stacks, from: nat, n: nat): Stacks
    requires from < |start| && n <= |start[from]|
  {
    start[from := start[from][n..]]
  }

  /** One more crate lifted: it goes on top of the temporary stack, which
      therefore holds the lifted crates in reverse. */
  lemma LiftStep(start: Stacks, from: nat, n: nat)
    requires from < |start| && n < |start[from]|
    ensures var current := if n == 0 then start else Lifted(start, from, n);
      current[from] == start[from][n..] &&
      current[from := current[from][1..]] == Lifted(start, from, n + 1)
    ensures [start[from][n]] + Reverse(start[from][..n]) == Reverse(start[from][..n + 1])
  {
    var source := start[from];
    assert source[n..][1..] == source[n + 1..];
    assert source[..n + 1] == source[..n] + [source[n]];
    ReverseSnoc(source[..n], source[n]);
  }

  /** Part 2's crane after putting down all but `m` of the lifted crates
      `top` on stack `to` (0-based). */
  ghost function PutDown(lifted: Stacks, to: nat, top: seq<char>, m: nat): Stacks
    requires to < |lifted| && m <= |top|
  {
    lifted[to := top[m..] + lifted[to]]
  }

  /** The temporary stack holds the remaining `m` crates reversed, so its
      top is the next one to go down. */
  lemma PutDownStep(lifted: Stacks, to: nat, top: seq<char>, m: nat, moved: seq<char>)
    requires to < |lifted| && 0 < m <= |top|
    requires moved == Reverse(top[..m])
    ensures moved != [] && moved[0] == top[m - 1]
    ensures moved[1..] == Reverse(top[..m - 1])
    ensures var current := PutDown(lifted, to, top, m);
      current[to := [moved[0]] + current[to]] == PutDown(lifted, to, top, m - 1)
  {
    assert top[..m] == top[..m - 1] + [top[m - 1]];
    ReverseSnoc(top[..m - 1], top[m - 1]);
    assert top[m - 1..] == [top[m - 1]] + top[m..];
    assert moved[0] == top[m - 1];
    var current := PutDown(lifted, to, top, m);
    assert [moved[0]] + current[to] == top[m - 1..] + lifted[to];
    assert current[to := top[m - 1..] + lifted[to]] == lifted[to := top[m - 1..] + lifted[to]];
  }

  /** Part 2's crane carrying out one instruction in place: the crates are
      lifted one by one onto a temporary stack and then put down one by
      one, which keeps their order. */
  method MoveBatchIn(crates: array<seq<char>>, ins: Instruction) returns (r: Result<(), Abort>)
    modifies crates
    ensures r.Ok? <==> MoveBatch(old(crates[..]), ins).Ok?
    ensures r.Ok? ==> crates[..] == MoveBatch(old(crates[..]), ins).value
    ensures r.Err? ==> r.error == MoveBatch(old(crates[..]), ins).error
  {
    ghost var start := crates[..];
    var moved: seq<char> := [];
    var n := 0;
    while n < ins.amount
      invariant 0 <= n <= ins.amount
      invariant n == 0 ==> crates[..] == start && moved == []
      invariant n > 0 ==> ValidStack(ins.from, crates.Length) && n <= |start[ins.from - 1]|
      invariant n > 0 ==> crates[..] == Lifted(start, ins.from - 1, n)
      invariant n > 0 ==> moved == Reverse(start[ins.from - 1][..n])
    {
      if !ValidStack(ins.from, crates.Length) {
        return Err(BadStackIndex);
      }
      if crates[ins.from - 1] == [] {
        return Err(NoCrateAvailable);
      }
      LiftStep(start, ins.from - 1, n);
      if n == 0 {
        assert start[ins.from - 1][..0] == [];
      }
      var c := crates[ins.from - 1][0];
      crates[ins.from - 1] := crates[ins.from - 1][1..];
      moved := [c] + moved;
      n := n + 1;
    }
    ghost var lifted := crates[..];
    ghost var top := if ins.amount > 0 then start[ins.from - 1][..ins.amount] else [];
    if ins.amount > 0 && ValidStack(ins.to, crates.Length) {
      assert top[|top|..] + lifted[ins.to - 1] == lifted[ins.to - 1];
      assert PutDown(lifted, ins.to - 1, top, |top|) == lifted;
    }
    while moved != []
      invariant ins.amount == 0 ==> moved == [] && crates[..] == start
      invariant ins.amount > 0 ==> |top| == ins.amount && lifted == Lifted(start, ins.from - 1, ins.amount)
      invariant ins.amount > 0 ==> ValidStack(ins.from, crates.Length) && ins.amount <= |start[ins.from - 1]|
      invariant ins.amount > 0 ==> |moved| <= |top| && moved == Reverse(top[..|moved|])
      invariant ins.amount > 0 && |moved| < |top| ==> ValidStack(ins.to, crates.Length)
      invariant ins.amount > 0 && !ValidStack(ins.to, crates.Length) ==> crates[..] == lifted
      invariant ins.amount > 0 && ValidStack(ins.to, crates.Length) ==>
        crates[..] == PutDown(lifted, ins.to - 1, top, |moved|)
      decreases |moved|
    {
      if !ValidStack(ins.to, crates.Length) {
        return Err(BadStackIndex);
      }
      PutDownStep(lifted, ins.to - 1, top, |moved|, moved);
      var c := moved[0];
      moved := moved[1..];
      crates[ins.to - 1] := [c] + crates[ins.to - 1];
    }
    if ins.amount > 0 {
      BatchDone(start, ins, lifted, top);
    }
    r := Ok(());
  }

  /** With every crate put down, the stacks are those of `MoveBatch`. */
  lemma BatchDone(start: Stacks, ins: Instruction, lifted: Stacks, top: seq<char>)
    requires ins.amount > 0 && ValidStack(ins.from, |start|) && ValidStack(ins.to, |start|)
    requires ins.amount <= |start[ins.from - 1]| && top == start[ins.from - 1][..ins.amount]
    requires lifted == Lifted(start, ins.from - 1, ins.amount)
    ensures MoveBatch(start, ins) == Ok(PutDown(lifted, ins.to - 1, top, 0))
  {
    assert top[0..] == top;
  }

  /** `apply_instructions`: part 1's crane works through the list. */
  method ApplyInstructions(crates: array<seq<char>>, instructions: seq<Instruction>) returns (r: Result<(), Abort>)
    modifies crates
    ensures r.Ok? <==> Run(OneAtATime, old(crates[..]), instructions).Ok?
    ensures r.Ok? ==> crates[..] == Run(OneAtATime, old(crates[..]), instructions).value
    ensures r.Err? ==> r.error == Run(OneAtATime, old(crates[..]), instructions).error
  {
    var k := 0;
    while k < |instructions|
      invariant 0 <= k <= |instructions|
      invariant Run(OneAtATime, old(crates[..]), instructions) == Run(OneAtATime, crates[..], instructions[k..])
    {
      assert instructions[k..][1..] == instructions[k + 1..];
      r := MoveOneAtATimeIn(crates, instructions[k]);
      if r.Err? {
        return;
      }
      k := k + 1;
    }
    r := Ok(());
  }

  /** `apply_instructions_part_2`: part 2's crane works through the list. */
  method ApplyInstructionsPart2(crates: array<seq<char>>, instructions: seq<Instruction>) returns (r: Result<(), Abort>)
    modifies crates
    ensures r.Ok? <==> Run(Batch, old(crates[..]), instructions).Ok?
    ensures r.Ok? ==> crates[..] == Run(Batch, old(crates[..]), instructions).value
    ensures r.Err? ==> r.error == Run(Batch, old(crates[..]), instructions).error
  {
    var k := 0;
    while k < |instructions|
      invariant 0 <= k <= |instructions|
      invariant Run(Batch, old(crates[..]), instructions) == Run(Batch, crates[..], instructions[k..])
    {
      assert instructions[k..][1..] == instructions[k + 1..];
      r := MoveBatchIn(crates, instructions[k]);
      if r.Err? {
        return;
      }
      k := k + 1;
    }
    r := Ok(());
  }

  // ---------------------------------------------------------------------
  // Reading the drawing of the stacks

  /** One cell of a drawing row: a crate or an empty slot. */
  type Cell = Option<char>

  /** How a cell is drawn. */
  function CellText(cell: Cell): (r: string)
    ensures |r| == 3
  {
    match cell
    case Some(c) => ['[', c, ']']
    case None => "   "
  }

  /** Cells drawn one after another, each preceded by a space. */
  function CellsAfter(cells: seq<Cell>): string
  {
    if cells == [] then "" else " " + CellText(cells[0]) + CellsAfter(cells[1..])
  }

  /** How a row is drawn: its cells separated by single spaces. */
  function RowText(row: seq<Cell>): string
    requires |row| > 0
  {
    CellText(row[0]) + CellsAfter(row[1..])
  }

  /** Rows drawn one after another, each preceded by a newline. */
  function RowsAfter(rows: seq<seq<Cell>>): string
    requires forall k :: 0 <= k < |rows| ==> |rows[k]| > 0
  {
    if rows == [] then "" else "\n" + RowText(rows[0]) + RowsAfter(rows[1..])
  }

  /** How a drawing is drawn: its rows separated by newlines. */
  function DrawingText(rows: seq<seq<Cell>>): string
    requires |rows| > 0 && forall k :: 0 <= k < |rows| ==> |rows[k]| > 0
  {
    RowText(rows[0]) + RowsAfter(rows[1..])
  }

  /** `parse_crate`: `[`, any one character, `]`. It reads exactly one
      drawn crate, and fails only when the text does not start with one. */
  function ParseCrate(s: string): (r: Option<(char, string)>)
    ensures r.Some? ==> s == CellText(Some(r.value.0)) + r.value.1
    ensures r.None? ==> forall c :: !(CellText(Some(c)) <= s)
  {
    if |s| >= 3 && s[0] == '[' && s[2] == ']' then
      assert s == ['[', s[1], ']'] + s[3..];
      Some((s[1], s[3..]))
    else None
  }

  /** `try_parse_crate`: a crate, or else three spaces for an empty slot.
      What it reads is exactly one drawn cell. */
  function TryParseCrate(s: string): (r: Option<(Cell, string)>)
    ensures r.Some? <==> |s| >= 3 && ((s[0] == '[' && s[2] == ']') || (s[0] == ' ' && s[1] == ' ' && s[2] == ' '))
    ensures r.Some? ==> r.value.1 == s[3..] && s == CellText(r.value.0) + r.value.1
  {
    if ParseCrate(s).Some? then
      Some((Some(ParseCrate(s).value.0), ParseCrate(s).value.1))
    else if |s| >= 3 && s[0] == ' ' && s[1] == ' ' && s[2] == ' ' then
      assert s == "   " + s[3..];
      Some((None, s[3..]))
    else None
  }

  /** What may follow a row: anything but a space and another cell. */
  predicate EndsRow(rest: string)
  {
    !(|rest| > 0 && rest[0] == ' ' && TryParseCrate(rest[1..]).Some?)
  }

  /** The cells after the first one of a row: each is a space followed by a
      cell; the first space not followed by a cell is left in the input.
      What is read is drawn cells, and reading stops only where the row
      cannot go on. */
  function MoreCells(s: string): (r: (seq<Cell>, string))
    ensures |r.1| <= |s| && EndsRow(r.1)
    ensures s == CellsAfter(r.0) + r.1
    decreases |s|
  {
    if |s| > 0 && s[0] == ' ' && TryParseCrate(s[1..]).Some? then
      var next := TryParseCrate(s[1..]).value;
      var more := MoreCells(next.1);
      var cells := [next.0] + more.0;
      assert cells[0] == next.0 && cells[1..] == more.0;
      DrawnAfterSpace(s, CellText(next.0), CellsAfter(more.0), more.1);
      (cells, more.1)
    else ([], s)
  }

  /** A space, a cell, and more drawn cells, regrouped. */
  lemma DrawnAfterSpace(s: string, cell: string, cells: string, rest: string)
    requires |s| > 0 && s[0] == ' ' && s[1..] == cell + (cells + rest)
    ensures s == (" " + cell + cells) + rest
  {
    assert s == " " + s[1..];
  }

  /** `parse_line`: one or more cells separated by single spaces; what it
      reads is one drawn row, up to where the row cannot go on. */
  function ParseLine(s: string): (r: Option<(seq<Cell>, string)>)
    ensures r.Some? <==> TryParseCrate(s).Some?
    ensures r.Some? ==> |r.value.0| > 0 && |r.value.1| < |s| && EndsRow(r.value.1)
    ensures r.Some? ==> s == RowText(r.value.0) + r.value.1
  {
    if TryParseCrate(s).None? then None
    else
      var first := TryParseCrate(s).value;
      var more := MoreCells(first.1);
      assert ([first.0] + more.0)[1..] == more.0;
      Some(([first.0] + more.0, more.1))
  }

  /** What may follow a drawing: the end of a row, and not a newline
      followed by another row. */
  predicate EndsDrawing(rest: string)
  {
    EndsRow(rest) && !(|rest| > 0 && rest[0] == '\n' && ParseLine(rest[1..]).Some?)
  }

  /** The rows after the first one: each is a newline followed by a row. */
  function MoreRows(s: string): (r: (seq<seq<Cell>>, string))
    ensures |r.1| <= |s|
    ensures forall k :: 0 <= k < |r.0| ==> |r.0[k]| > 0
    ensures s == RowsAfter(r.0) + r.1
    ensures EndsRow(s) ==> EndsDrawing(r.1)
    decreases |s|
  {
    if |s| > 0 && s[0] == '\n' && ParseLine(s[1..]).Some? then
      var next := ParseLine(s[1..]).value;
      var more := MoreRows(next.1);
      var rows := [next.0] + more.0;
      assert rows[1..] == more.0;
      DrawnAfterNewline(s, RowText(next.0), RowsAfter(more.0), more.1);
      (rows, more.1)
    else ([], s)
  }

  /** A newline, a row, and more drawn rows, regrouped. */
  lemma DrawnAfterNewline(s: string, row: string, rows: string, rest: string)
    requires |s| > 0 && s[0] == '\n' && s[1..] == row + (rows + rest)
    ensures s == ("\n" + row + rows) + rest
  {
    assert s == "\n" + s[1..];
  }

  /** The rows of the drawing (`separated_list1(newline, parse_line)`), top
      row first: what is read is one drawing, up to where it cannot go on. */
  function ParseRows(s: string): (r: Option<(seq<seq<Cell>>, string)>)
    ensures r.Some? <==> TryParseCrate(s).Some?
    ensures r.Some? ==> |r.value.0| > 0 && forall k :: 0 <= k < |r.value.0| ==> |r.value.0[k]| > 0
    ensures r.Some? ==> s == DrawingText(r.value.0) + r.value.1 && EndsDrawing(r.value.1)
  {
    if ParseLine(s).None? then None
    else
      var first := ParseLine(s).value;
      var more := MoreRows(first.1);
      DrawingCons(first.0, more.0);
      AppendAssoc(RowText(first.0), RowsAfter(more.0), more.1);
      Some(([first.0] + more.0, more.1))
  }

  /** A first row in front of more rows. */
  lemma DrawingCons(row: seq<Cell>, more: seq<seq<Cell>>)
    requires |row| > 0 && forall k :: 0 <= k < |more| ==> |more[k]| > 0
    ensures forall k :: 0 <= k < |[row] + more| ==> |([row] + more)[k]| > 0
    ensures DrawingText([row] + more) == RowText(row) + RowsAfter(more)
  {
    var rows := [row] + more;
    assert rows[0] == row && rows[1..] == more;
  }

  /** A cell reads back as itself. */
  lemma TryParseCellText(cell: Cell, rest: string)
    ensures TryParseCrate(CellText(cell) + rest) == Some((cell, rest))
  {
    var s := CellText(cell) + rest;
    assert s[3..] == rest;
  }

  /** A space and a drawn cell: `MoreCells` takes that cell and goes on
      after it. */
  lemma MoreCellsCons(s: string, cell: Cell, tail: string)
    requires |s| > 0 && s[0] == ' ' && s[1..] == CellText(cell) + tail
    ensures MoreCells(s) == ([cell] + MoreCells(tail).0, MoreCells(tail).1)
  {
    TryParseCellText(cell, tail);
  }

  /** Regrouping `(" " + a + b) + c` as a space followed by `a + (b + c)`. */
  lemma SpaceRegroup(a: string, b: string, c: string)
    ensures |(" " + a + b) + c| > 0 && ((" " + a + b) + c)[0] == ' '
    ensures ((" " + a + b) + c)[1..] == a + (b + c)
  {
    assert ((" " + a + b) + c)[1..] == a + b + c;
  }

  /** Drawn cells followed by the end of the row read back as themselves. */
  lemma {:induction false} MoreCellsText(cells: seq<Cell>, rest: string)
    requires EndsRow(rest)
    ensures MoreCells(CellsAfter(cells) + rest) == (cells, rest)
  {
    if cells == [] {
      assert CellsAfter(cells) + rest == rest;
    } else {
      var tail := CellsAfter(cells[1..]) + rest;
      SpaceRegroup(CellText(cells[0]), CellsAfter(cells[1..]), rest);
      MoreCellsCons(CellsAfter(cells) + rest, cells[0], tail);
      MoreCellsText(cells[1..], rest);
      ConsTail(cells);
    }
  }

  /** A drawn row followed by the end of the row reads back as itself. */
  lemma ParseLineText(row: seq<Cell>, rest: string)
    requires |row| > 0 && EndsRow(rest)
    ensures ParseLine(RowText(row) + rest) == Some((row, rest))
  {
    var tail := CellsAfter(row[1..]) + rest;
    assert RowText(row) + rest == CellText(row[0]) + tail;
    TryParseCellText(row[0], tail);
    MoreCellsText(row[1..], rest);
    ConsTail(row);
  }

  /** A row drawing followed by a newline ends the row. */
  lemma EndsRowAtNewline(rows: seq<seq<Cell>>, rest: string)
    requires forall k :: 0 <= k < |rows| ==> |rows[k]| > 0
    requires EndsRow(rest)
    ensures EndsRow(RowsAfter(rows) + rest)
  {
    if rows != [] {
      assert (RowsAfter(rows) + rest)[0] == '\n';
    }
  }

  /** A newline and a drawn row that ends: `MoreRows` takes that row and
      goes on after it. */
  lemma MoreRowsCons(s: string, row: seq<Cell>, tail: string)
    requires |row| > 0 && EndsRow(tail)
    requires |s| > 0 && s[0] == '\n' && s[1..] == RowText(row) + tail
    ensures MoreRows(s) == ([row] + MoreRows(tail).0, MoreRows(tail).1)
  {
    ParseLineText(row, tail);
  }

  /** Regrouping `("\n" + a + b) + c` as a newline followed by `a + (b + c)`. */
  lemma NewlineRegroup(a: string, b: string, c: string)
    ensures |("\n" + a + b) + c| > 0 && (("\n" + a + b) + c)[0] == '\n'
    ensures (("\n" + a + b) + c)[1..] == a + (b + c)
  {
    assert (("\n" + a + b) + c)[1..] == a + b + c;
  }

  lemma {:induction false} MoreRowsText(rows: seq<seq<Cell>>, rest: string)
    requires forall k :: 0 <= k < |rows| ==> |rows[k]| > 0
    requires EndsDrawing(rest)
    ensures MoreRows(RowsAfter(rows) + rest) == (rows, rest)
  {
    if rows == [] {
      assert RowsAfter(rows) + rest == rest;
    } else {
      var tail := RowsAfter(rows[1..]) + rest;
      NewlineRegroup(RowText(rows[0]), RowsAfter(rows[1..]), rest);
      EndsRowAtNewline(rows[1..], rest);
      MoreRowsCons(RowsAfter(rows) + rest, rows[0], tail);
      MoreRowsText(rows[1..], rest);
      ConsTail(rows);
    }
  }

  /** A drawing followed by something that cannot continue it reads back
      as its rows. */
  lemma ParseRowsText(rows: seq<seq<Cell>>, rest: string)
    requires |rows| > 0 && forall k :: 0 <= k < |rows| ==> |rows[k]| > 0
    requires EndsDrawing(rest)
    ensures ParseRows(DrawingText(rows) + rest) == Some((rows, rest))
  {
    var tail := RowsAfter(rows[1..]) + rest;
    AppendAssoc(RowText(rows[0]), RowsAfter(rows[1..]), rest);
    EndsRowAtNewline(rows[1..], rest);
    ParseRowsCons(DrawingText(rows) + rest, rows[0], tail);
    MoreRowsText(rows[1..], rest);
    ConsTail(rows);
  }

  /** A drawn row that ends: `ParseRows` takes it as the first row and goes
      on after it. */
  lemma ParseRowsCons(s: string, row: seq<Cell>, tail: string)
    requires |row| > 0 && EndsRow(tail) && s == RowText(row) + tail
    ensures ParseRows(s) == Some(([row] + MoreRows(tail).0, MoreRows(tail).1))
  {
    ParseLineText(row, tail);
  }

  // ---------------------------------------------------------------------
  // Filling the stacks from the drawing

  /** The crate, if any, that `row` draws over stack `i` (0-based). */
  function CellCrate(row: seq<Cell>, i: nat): (r: seq<char>)
    ensures |r| <= 1
  {
    if i < |row| && row[i].Some? then [row[i].value] else []
  }

  /** Stack `i` as the drawing shows it: the crates drawn over it, from the
      top row down, so the top crate comes first. */
  function Column(rows: seq<seq<Cell>>, i: nat): (r: seq<char>)
    ensures |r| <= |rows|
  {
    if rows == [] then [] else Column(rows[..|rows| - 1], i) + CellCrate(rows[|rows| - 1], i)
  }

  /** Every crate of the drawing lies over one of the first `count` stacks. */
  predicate Fits(rows: seq<seq<Cell>>, count: nat)
  {
    forall k, i :: 0 <= k < |rows| && 0 <= i < |rows[k]| && rows[k][i].Some? ==> i < count
  }

  /** `count` stacks filled from the drawing, or the abort when a crate lies
      past the last of them. */
  function StacksOf(rows: seq<seq<Cell>>, count: nat): Result<Stacks, Abort>
  {
    if Fits(rows, count) then Ok(seq(count, i requires 0 <= i < count => Column(rows, i)))
    else Err(BadStackIndex)
  }

  /** The loop of `parse_crates`: `count` empty stacks, then every crate of
      every row, top row first, pushed on the bottom of the stack below it. */
  method FillStacks(rows: seq<seq<Cell>>, count: nat) returns (r: Result<array<seq<char>>, Abort>)
    ensures r.Ok? <==> Fits(rows, count)
    ensures r.Err? ==> r.error == BadStackIndex
    ensures r.Ok? ==> fresh(r.value) && StacksOf(rows, count) == Ok(r.value[..])
  {
    var crates := new seq<char>[count](_ => []);
    var k := 0;
    while k < |rows|
      invariant 0 <= k <= |rows|
      invariant Fits(rows[..k], count)
      invariant forall i :: 0 <= i < count ==> crates[i] == Column(rows[..k], i)
    {
      var line := rows[k];
      var j := 0;
      while j < |line|
        invariant 0 <= j <= |line|
        invariant forall i :: 0 <= i < j && line[i].Some? ==> i < count
        invariant forall i :: 0 <= i < count ==> crates[i] == Column(rows[..k], i) + CellCrate(line[..j], i)
      {
        CellCrateStep(line, j);
        if line[j].Some? {
          if j >= count {
            NotFits(rows, count, k, j);
            return Err(BadStackIndex);
          }
          crates[j] := crates[j] + [line[j].value];
        }
        j := j + 1;
      }
      ColumnStep(rows, k);
      FitsStep(rows, count, k);
      k := k + 1;
    }
    assert rows[..k] == rows;
    assert crates[..] == seq(count, i requires 0 <= i < count => Column(rows, i));
    r := Ok(crates);
  }

  /** One more cell of a row adds its crate to the stack below it. */
  lemma CellCrateStep(row: seq<Cell>, j: nat)
    requires j < |row|
    ensures forall i :: i != j ==> CellCrate(row[..j + 1], i) == CellCrate(row[..j], i)
    ensures CellCrate(row[..j + 1], j) == if row[j].Some? then [row[j].value] else []
  {
  }

  /** One more row adds its crates to the bottom of the stacks. */
  lemma ColumnStep(rows: seq<seq<Cell>>, k: nat)
    requires k < |rows|
    ensures forall i :: Column(rows[..k + 1], i) == Column(rows[..k], i) + CellCrate(rows[k][..|rows[k]|], i)
  {
    assert rows[..k + 1][..k] == rows[..k];
    assert rows[k][..|rows[k]|] == rows[k];
  }

  /** One more row whose crates all lie over the first `count` stacks keeps
      the drawing within them. */
  lemma FitsStep(rows: seq<seq<Cell>>, count: nat, k: nat)
    requires k < |rows| && Fits(rows[..k], count)
    requires forall i :: 0 <= i < |rows[k]| && rows[k][i].Some? ==> i < count
    ensures Fits(rows[..k + 1], count)
  {
    var pre: seq<seq<Cell>> := rows[..k + 1];
    forall k': nat, i: nat | k' < |pre| && i < |pre[k']| && pre[k'][i].Some?
      ensures i < count
    {
      if k' < k {
        assert pre[k'] == rows[..k][k'];
      }
    }
  }

  /** A crate past the last stack means the drawing does not fit. */
  lemma NotFits(rows: seq<seq<Cell>>, count: nat, k: nat, j: nat)
    requires k < |rows| && j < |rows[k]| && rows[k][j].Some? && count <= j
    ensures !Fits(rows, count)
  {
  }

  /** One past the rightmost crate of a row: 0 for a row without crates. */
  function RowCrateWidth(row: seq<Cell>): (w: nat)
    ensures w <= |row|
    ensures forall i :: w <= i < |row| ==> row[i].None?
    ensures w == 0 || row[w - 1].Some?
  {
    if row == [] then 0
    else if row[|row| - 1].Some? then |row|
    else RowCrateWidth(row[..|row| - 1])
  }

  /** One past the rightmost crate of the whole drawing: the fewest stacks
      that leave no crate without a stack below it. */
  function CrateWidth(rows: seq<seq<Cell>>): (w: nat)
    ensures Fits(rows, w)
    ensures forall c: nat :: Fits(rows, c) ==> w <= c
  {
    if rows == [] then 0
    else
      var first, rest := RowCrateWidth(rows[0]), CrateWidth(rows[1..]);
      assert forall k :: 1 <= k < |rows| ==> rows[k] == rows[1..][k - 1];
      assert forall c: nat :: Fits(rows, c) ==> Fits(rows[1..], c) && first <= c;
      if first >= rest then first else rest
  }

  /** How many stacks there are, corrected: as many as the first row has
      cells, raised to one past the rightmost crate when a crate lies
      further right. It is the least count that does both, so every crate
      has a stack below it. */
  function StackCount(rows: seq<seq<Cell>>): (n: nat)
    ensures Fits(rows, n)
    ensures rows != [] ==> |rows[0]| <= n
    ensures forall c: nat :: Fits(rows, c) && (rows != [] ==> |rows[0]| <= c) ==> n <= c
  {
    var w := CrateWidth(rows);
    if rows != [] && |rows[0]| >= w then |rows[0]| else w
  }

  /** How many stacks `parse_crates` makes, as written: as many as the
      first row has cells. That is never more than the corrected count, and
      it is the corrected count exactly when every crate has a stack below
      it. */
  function AsWrittenStackCount(rows: seq<seq<Cell>>): (n: nat)
    ensures n <= StackCount(rows)
    ensures Fits(rows, n) <==> n == StackCount(rows)
  {
    if rows == [] then 0 else |rows[0]|
  }

  /** `parse_crates` as written: the stacks, sized by the first row, and the
      input after the drawing. */
  method ParseCratesAsWritten(input: string) returns (r: Result<(array<seq<char>>, string), Abort>)
    ensures ParseRows(input).None? ==> r == Err(Malformed)
    ensures ParseRows(input).Some? ==>
      var (rows, rest) := ParseRows(input).value;
      (r.Ok? <==> Fits(rows, AsWrittenStackCount(rows))) &&
      (r.Err? ==> r.error == BadStackIndex) &&
      (r.Ok? ==> fresh(r.value.0) && StacksOf(rows, AsWrittenStackCount(rows)) == Ok(r.value.0[..]) && r.value.1 == rest)
  {
    var parsed := ParseRows(input);
    if parsed.None? {
      return Err(Malformed);
    }
    var (rows, rest) := parsed.value;
    var filled := FillStacks(rows, |rows[0]|);
    if filled.Err? {
      return Err(filled.error);
    }
    r := Ok((filled.value, rest));
  }

  /** `parse_crates` with the stack count corrected: it fails only when no
      drawing row starts the input. */
  method ParseCrates(input: string) returns (r: Result<(array<seq<char>>, string), Abort>)
    ensures r.Ok? <==> ParseRows(input).Some?
    ensures r.Err? ==> r.error == Malformed
    ensures r.Ok? ==>
      var (rows, rest) := ParseRows(input).value;
      fresh(r.value.0) && StacksOf(rows, StackCount(rows)) == Ok(r.value.0[..]) && r.value.1 == rest
  {
    var parsed := ParseRows(input);
    if parsed.None? {
      return Err(Malformed);
    }
    var (rows, rest) := parsed.value;
    var filled := FillStacks(rows, StackCount(rows));
    r := Ok((filled.value, rest));
  }

  // ---------------------------------------------------------------------
  // Reading the instructions

  /** `parse_instruction`: "move ", a number, " from ", a number, " to ",
      a number. Each number is the longest run of digits (`digit1`). */
  function ParseInstruction(s: string): (r: Option<(Instruction, string)>)
    ensures r.Some? ==> |r.value.1| < |s|
  {
    var afterMove := Tag(s, "move ");
    if afterMove.None? then None
    else
      var amount := Digits1(afterMove.value);
      if amount.None? then None
      else
        var afterFrom := Tag(amount.value.1, " from ");
        if afterFrom.None? then None
        else
          var from := Digits1(afterFrom.value);
          if from.None? then None
          else
            var afterTo := Tag(from.value.1, " to ");
            if afterTo.None? then None
            else
              var to := Digits1(afterTo.value);
              if to.None? then None
              else Some((Instruction(amount.value.0, from.value.0, to.value.0), to.value.1))
  }

  /** The instructions after the first: each is a newline followed by an
      instruction; a newline not followed by one is left in the input. */
  function MoreInstructions(s: string): (r: (seq<Instruction>, string))
    ensures |r.1| <= |s|
    decreases |s|
  {
    if |s| > 0 && s[0] == '\n' && ParseInstruction(s[1..]).Some? then
      var next := ParseInstruction(s[1..]).value;
      var more := MoreInstructions(next.1);
      ([next.0] + more.0, more.1)
    else ([], s)
  }

  /** `parse_instructions` (`separated_list0(newline, parse_instruction)`):
      zero or more instructions separated by newlines. It never fails. */
  function ParseInstructions(s: string): (r: (seq<Instruction>, string))
    ensures r.0 == [] <==> ParseInstruction(s).None?
    ensures r.0 == [] ==> r.1 == s
  {
    if ParseInstruction(s).None? then ([], s)
    else
      var first := ParseInstruction(s).value;
      var more := MoreInstructions(first.1);
      ([first.0] + more.0, more.1)
  }

  /** How an instruction is written. */
  function InstructionText(ins: Instruction): string
  {
    "move " + NatToString(ins.amount) + " from " + NatToString(ins.from) + " to " + NatToString(ins.to)
  }

  /** The lines that stand for a list of instructions. */
  function InstructionLines(instructions: seq<Instruction>): (r: seq<string>)
    ensures |r| == |instructions|
    ensures forall k :: 0 <= k < |r| ==> r[k] == InstructionText(instructions[k])
  {
    seq(|instructions|, k requires 0 <= k < |instructions| => InstructionText(instructions[k]))
  }

  /** Instructions written one per line. */
  function InstructionsText(instructions: seq<Instruction>): string
    requires |instructions| > 0
  {
    Join(InstructionLines(instructions), "\n")
  }

  /** What may follow an instruction's last number: anything but a digit. */
  predicate EndsNumber(rest: string)
  {
    rest == [] || !IsDigit(rest[0])
  }

  /** What may follow the instructions: the end of a number, and not a
      newline followed by another instruction. */
  predicate EndsInstructions(rest: string)
  {
    EndsNumber(rest) && !(|rest| > 0 && rest[0] == '\n' && ParseInstruction(rest[1..]).Some?)
  }

  /** A written instruction with what follows, grouped field by field. */
  lemma InstructionTextGrouped(ins: Instruction, rest: string)
    ensures InstructionText(ins) + rest ==
      "move " + (NatToString(ins.amount) + (" from " + (NatToString(ins.from) + (" to " + (NatToString(ins.to) + rest)))))
  {
    var a, f, t := NatToString(ins.amount), NatToString(ins.from), NatToString(ins.to);
    AppendAssoc("move " + a + " from " + f + " to ", t, rest);
    AppendAssoc("move " + a + " from " + f, " to ", t + rest);
    AppendAssoc("move " + a + " from ", f, " to " + (t + rest));
    AppendAssoc("move " + a, " from ", f + (" to " + (t + rest)));
    AppendAssoc("move ", a, " from " + (f + (" to " + (t + rest))));
  }

  /** A field of an instruction reads back: its tag is skipped, and its
      number is read up to whatever follows that cannot extend it. */
  lemma ParseFieldText(tag: string, n: nat, rest: string)
    requires EndsNumber(rest)
    ensures Tag(tag + (NatToString(n) + rest), tag) == Some(NatToString(n) + rest)
    ensures Digits1(NatToString(n) + rest) == Some((n, rest))
  {
    TagOf(tag, NatToString(n) + rest);
    Digits1OfNatToString(n, rest);
  }

  /** A written instruction reads back as itself. Only one direction holds:
      `digit1` also reads numbers written with leading zeros. */
  lemma ParseInstructionText(ins: Instruction, rest: string)
    requires EndsNumber(rest)
    ensures ParseInstruction(InstructionText(ins) + rest) == Some((ins, rest))
  {
    var s6 := NatToString(ins.to) + rest;
    var s4 := NatToString(ins.from) + (" to " + s6);
    var s2 := NatToString(ins.amount) + (" from " + s4);
    InstructionTextGrouped(ins, rest);
    ParseFieldText("move ", ins.amount, " from " + s4);
    ParseFieldText(" from ", ins.from, " to " + s6);
    ParseFieldText(" to ", ins.to, rest);
  }

  /** `line` reads as `ins`, whatever follows it that cannot extend its
      last number. */
  ghost predicate ReadsAs(line: string, ins: Instruction)
  {
    forall t {:trigger ParseInstruction(line + t)} :: EndsNumber(t) ==> ParseInstruction(line + t) == Some((ins, t))
  }

  lemma ReadsAsWith(line: string, ins: Instruction, t: string)
    requires ReadsAs(line, ins) && EndsNumber(t)
    ensures ParseInstruction(line + t) == Some((ins, t))
  {
  }

  lemma InstructionReadsAs(ins: Instruction)
    ensures ReadsAs(InstructionText(ins), ins)
  {
    forall t | EndsNumber(t)
      ensures ParseInstruction(InstructionText(ins) + t) == Some((ins, t))
    {
      ParseInstructionText(ins, t);
    }
  }

  /** Nothing more is read where the instructions cannot continue. */
  lemma MoreInstructionsStop(rest: string)
    requires EndsInstructions(rest)
    ensures MoreInstructions(rest) == ([], rest)
  {
  }

  /** Text that `ParseInstruction` cannot extend: a newline, or what
      cannot continue the instructions. */
  lemma EndsNumberAfter(lines: seq<string>, rest: string)
    requires EndsInstructions(rest)
    ensures EndsNumber(LinesAfter(lines) + rest)
  {
    if lines != [] {
      assert (LinesAfter(lines) + rest)[0] == '\n';
    }
  }

  /** Lines that read as instructions, each after a newline, are read back
      by `MoreInstructions` up to where the instructions cannot continue. */
  lemma {:induction false} MoreInstructionsLines(lines: seq<string>, instructions: seq<Instruction>, rest: string)
    requires |lines| == |instructions|
    requires forall k :: 0 <= k < |lines| ==> ReadsAs(lines[k], instructions[k])
    requires EndsInstructions(rest)
    ensures MoreInstructions(LinesAfter(lines) + rest) == (instructions, rest)
  {
    if lines == [] {
      assert LinesAfter(lines) + rest == rest;
      MoreInstructionsStop(rest);
    } else {
      var tail := LinesAfter(lines[1..]) + rest;
      NewlineRegroup(lines[0], LinesAfter(lines[1..]), rest);
      EndsNumberAfter(lines[1..], rest);
      ReadsAsWith(lines[0], instructions[0], tail);
      MoreInstructionsLines(lines[1..], instructions[1..], rest);
      NewlineStep(LinesAfter(lines) + rest, lines[0], tail, instructions[0], instructions[1..], rest);
      ConsTail(instructions);
    }
  }

  /** The step of `MoreInstructions` over one newline and instruction. */
  lemma NewlineStep(s: string, line: string, tail: string, ins: Instruction, more: seq<Instruction>, rest: string)
    requires ParseInstruction(line + tail) == Some((ins, tail))
    requires |s| > 0 && s[0] == '\n' && s[1..] == line + tail
    requires MoreInstructions(tail) == (more, rest)
    ensures MoreInstructions(s) == ([ins] + more, rest)
  {
  }

  /** Lines that read as instructions, one per line, read back by
      `ParseInstructions` up to where the instructions cannot continue. */
  lemma ParseInstructionLines(lines: seq<string>, instructions: seq<Instruction>, rest: string)
    requires |lines| == |instructions| > 0
    requires forall k :: 0 <= k < |lines| ==> ReadsAs(lines[k], instructions[k])
    requires EndsInstructions(rest)
    ensures ParseInstructions(Join(lines, "\n") + rest) == (instructions, rest)
  {
    var tail := LinesAfter(lines[1..]) + rest;
    JoinLinesAfter(lines);
    AppendAssoc(lines[0], LinesAfter(lines[1..]), rest);
    EndsNumberAfter(lines[1..], rest);
    ReadsAsWith(lines[0], instructions[0], tail);
    MoreInstructionsLines(lines[1..], instructions[1..], rest);
    FirstStep(Join(lines, "\n") + rest, lines[0], tail, instructions[0], instructions[1..], rest);
    ConsTail(instructions);
  }

  /** The first step of `ParseInstructions`. */
  lemma FirstStep(s: string, line: string, tail: string, ins: Instruction, more: seq<Instruction>, rest: string)
    requires s == line + tail
    requires ParseInstruction(line + tail) == Some((ins, tail))
    requires MoreInstructions(tail) == (more, rest)
    ensures ParseInstructions(s) == ([ins] + more, rest)
  {
  }

  /** Written instructions, followed by something that cannot continue
      them, read back as themselves. */
  lemma ParseInstructionsText(instructions: seq<Instruction>, rest: string)
    requires |instructions| > 0 && EndsInstructions(rest)
    ensures ParseInstructions(InstructionsText(instructions) + rest) == (instructions, rest)
  {
    var lines := InstructionLines(instructions);
    forall k | 0 <= k < |lines|
      ensures ReadsAs(lines[k], instructions[k])
    {
      InstructionReadsAs(instructions[k]);
    }
    ParseInstructionLines(lines, instructions, rest);
  }

  /** `many_till(anychar, count(newline, 2))`: everything up to and
      including the first blank line is skipped; without one the parse
      fails. */
  function SkipPastBlankLine(s: string): (r: Option<string>)
    ensures r.None? <==> forall j :: !OccursAt(s, "\n\n", j)
    ensures r.Some? ==> |r.value| + 2 <= |s|
    ensures r.Some? ==> var i := |s| - |r.value| - 2;
      OccursAt(s, "\n\n", i) && r.value == s[i + 2..] &&
      forall j :: 0 <= j < i ==> !OccursAt(s, "\n\n", j)
  {
    match IndexOf(s, "\n\n")
    case None => None
    case Some(i) => Some(s[i + 2..])
  }

  // ---------------------------------------------------------------------
  // The whole input

  /** `parse_input` with the corrected stack count: the drawing, then
      everything up to and including the first blank line (which skips the
      row of stack numbers), then the instructions. Whatever follows the
      instructions is ignored, as `finish()` only rejects a failed parse. */
  function ParsedInput(input: string): (r: Result<(Stacks, seq<Instruction>), Abort>)
    ensures r.Ok? <==> ParseRows(input).Some? && SkipPastBlankLine(ParseRows(input).value.1).Some?
    ensures r.Err? ==> r.error == Malformed
    ensures r.Ok? ==> var rows := ParseRows(input).value.0;
      |r.value.0| == StackCount(rows) &&
      forall i :: 0 <= i < |r.value.0| ==> r.value.0[i] == Column(rows, i)
  {
    match ParseRows(input)
    case None => Err(Malformed)
    case Some((rows, rest)) =>
      match SkipPastBlankLine(rest)
      case None => Err(Malformed)
      case Some(after) =>
        Ok((StacksOf(rows, StackCount(rows)).value, ParseInstructions(after).0))
  }

  /** `parse_input` as written: the stacks are sized by the first row, and
      a crate further right aborts before the blank line is looked for. */
  function ParsedInputAsWritten(input: string): (r: Result<(Stacks, seq<Instruction>), Abort>)
    ensures ParseRows(input).None? ==> r == Err(Malformed)
    ensures ParseRows(input).Some? && !Fits(ParseRows(input).value.0, AsWrittenStackCount(ParseRows(input).value.0))
      ==> r == Err(BadStackIndex)
  {
    match ParseRows(input)
    case None => Err(Malformed)
    case Some((rows, rest)) =>
      match StacksOf(rows, AsWrittenStackCount(rows))
      case Err(e) => Err(e)
      case Ok(stacks) =>
        match SkipPastBlankLine(rest)
        case None => Err(Malformed)
        case Some(after) => Ok((stacks, ParseInstructions(after).0))
  }

  /** The parse as written and the corrected one differ only where the
      one as written aborts because a crate has no stack below it. */
  lemma AsWrittenAgrees(input: string)
    ensures ParsedInputAsWritten(input) != ParsedInput(input) <==> ParsedInputAsWritten(input) == Err(BadStackIndex)
  {
    if ParseRows(input).Some? {
      var rows := ParseRows(input).value.0;
      if Fits(rows, AsWrittenStackCount(rows)) {
        assert AsWrittenStackCount(rows) == StackCount(rows);
      }
    }
  }

  /** `parse_input` (corrected): the stacks in a fresh vector, and the
      instructions. */
  method ParseInput(input: string) returns (r: Result<(array<seq<char>>, seq<Instruction>), Abort>)
    ensures r.Ok? <==> ParsedInput(input).Ok?
    ensures r.Err? ==> r.error == ParsedInput(input).error
    ensures r.Ok? ==> fresh(r.value.0) && (r.value.0[..], r.value.1) == ParsedInput(input).value
  {
    var crates := ParseCrates(input);
    if crates.Err? {
      return Err(crates.error);
    }
    var (stacks, rest) := crates.value;
    ParsedInputSteps(input);
    var after := SkipPastBlankLine(rest);
    if after.None? {
      return Err(Malformed);
    }
    var (instructions, _) := ParseInstructions(after.value);
    r := Ok((stacks, instructions));
  }

  /** The corrected parse, step by step once the drawing is read. */
  lemma ParsedInputSteps(input: string)
    requires ParseRows(input).Some?
    ensures var (rows, rest) := ParseRows(input).value;
      match SkipPastBlankLine(rest)
      case None => ParsedInput(input) == Err(Malformed)
      case Some(after) =>
        (StacksOf(rows, StackCount(rows)).Ok? &&
         ParsedInput(input) == Ok((StacksOf(rows, StackCount(rows)).value, ParseInstructions(after).0)))
  {
  }

  /** The answer for one crane: read the input, carry out the
      instructions, and read off the top crates. */
  function Answer(crane: Crane, input: string): (r: Result<string, Abort>)
    ensures r.Ok? ==> ParsedInput(input).Ok? && |r.value| == |ParsedInput(input).value.0|
  {
    match ParsedInput(input)
    case Err(e) => Err(e)
    case Ok((stacks, instructions)) =>
      match Run(crane, stacks, instructions)
      case Err(e) => Err(e)
      case Ok(final) => TopCrates(final)
  }

  /** `part_1`: parse, move with part 1's crane, read the top crates. */
  method Part1(input: string) returns (r: Result<string, Abort>)
    ensures r == Answer(OneAtATime, input)
  {
    var parsed := ParseInput(input);
    if parsed.Err? {
      return Err(parsed.error);
    }
    var (crates, instructions) := parsed.value;
    var moved := ApplyInstructions(crates, instructions);
    if moved.Err? {
      return Err(moved.error);
    }
    r := TopCrates(crates[..]);
  }

  /** `part_2`: parse, move with part 2's crane, read the top crates. */
  method Part2(input: string) returns (r: Result<string, Abort>)
    ensures r == Answer(Batch, input)
  {
    var parsed := ParseInput(input);
    if parsed.Err? {
      return Err(parsed.error);
    }
    var (crates, instructions) := parsed.value;
    var moved := ApplyInstructionsPart2(crates, instructions);
    if moved.Err? {
      return Err(moved.error);
    }
    r := TopCrates(crates[..]);
  }

  // ---------------------------------------------------------------------
  // The sample of the tests

  /** The sample drawing, its row of stack numbers and the blank line, and
      the sample instructions. */
  const SampleDrawing := "    [D]" + "\n" + "[N] [C]    " + "\n" + "[Z] [M] [P]"
  const SampleNumbers := "\n 1   2   3 \n\n"
  const SampleMoves := "move 1 from 2 to 1" + "\n" + "move 3 from 1 to 3" + "\n" + "move 2 from 2 to 1" + "\n" + "move 1 from 1 to 2"
  const SampleInput := SampleDrawing + SampleNumbers + SampleMoves

  const SampleRows: seq<seq<Cell>> := [[None, Some('D')], [Some('N'), Some('C'), None], [Some('Z'), Some('M'), Some('P')]]
  const SampleStacks: Stacks := ["NZ", "DCM", "P"]
  const SampleInstructions := [Instruction(1, 2, 1), Instruction(3, 1, 3), Instruction(2, 2, 1), Instruction(1, 1, 2)]

  /** The sample drawing reads as its three rows, whatever follows it
      that starts with the row of stack numbers. */
  lemma SampleDrawingRows(rest: string)
    requires |rest| >= 2 && rest[0] == '\n' && rest[1] == ' ' && (|rest| == 2 || rest[2] != ' ')
    ensures ParseRows(SampleDrawing + rest) == Some((SampleRows, rest))
  {
    SampleDrawingText(SampleRows);
    SampleEndsDrawing(rest);
    ParseRowsText(SampleRows, rest);
  }

  /** A newline and a row of stack numbers end the drawing. */
  lemma SampleEndsDrawing(rest: string)
    requires |rest| >= 2 && rest[0] == '\n' && rest[1] == ' ' && (|rest| == 2 || rest[2] != ' ')
    ensures EndsDrawing(rest)
  {
    assert !(|rest| > 0 && rest[0] == ' ');
    assert ParseLine(rest[1..]).None?;
  }

  /** The sample's rows are drawn as the sample drawing. */
  lemma SampleDrawingText(rows: seq<seq<Cell>>)
    requires rows == SampleRows
    ensures DrawingText(rows) == SampleDrawing
  {
    DrawThree(rows[0], rows[1], rows[2]);
    assert rows == [rows[0], rows[1], rows[2]];
    SampleRow0(rows[0]);
    SampleRow1(rows[1]);
    SampleRow2(rows[2]);
  }

  lemma SampleRow0(row: seq<Cell>)
    requires row == [None, Some('D')]
    ensures RowText(row) == "    [D]"
  {
    DrawTwo(row[0], row[1]);
    assert row == [row[0], row[1]];
  }

  lemma SampleRow1(row: seq<Cell>)
    requires row == [Some('N'), Some('C'), None]
    ensures RowText(row) == "[N] [C]    "
  {
    DrawThreeCells(row[0], row[1], row[2]);
    assert row == [row[0], row[1], row[2]];
  }

  lemma SampleRow2(row: seq<Cell>)
    requires row == [Some('Z'), Some('M'), Some('P')]
    ensures RowText(row) == "[Z] [M] [P]"
  {
    DrawThreeCells(row[0], row[1], row[2]);
    assert row == [row[0], row[1], row[2]];
  }

  /** A drawing of three rows. */
  lemma DrawThree(r0: seq<Cell>, r1: seq<Cell>, r2: seq<Cell>)
    requires |r0| > 0 && |r1| > 0 && |r2| > 0
    ensures DrawingText([r0, r1, r2]) == RowText(r0) + "\n" + RowText(r1) + "\n" + RowText(r2)
  {
    var rows := [r0, r1, r2];
    assert rows[1..] == [r1, r2] && rows[1..][1..] == [r2] && rows[1..][1..][1..] == [];
    var t1, t2 := RowText(r1), RowText(r2);
    assert RowsAfter(rows[1..][1..]) == "\n" + t2 + "";
    assert "\n" + t2 + "" == "\n" + t2;
    assert RowsAfter(rows[1..]) == "\n" + t1 + ("\n" + t2);
  }

  /** A row of two cells. */
  lemma DrawTwo(c0: Cell, c1: Cell)
    ensures RowText([c0, c1]) == CellText(c0) + " " + CellText(c1)
  {
    var row := [c0, c1];
    assert row[1..] == [c1] && row[1..][1..] == [];
    assert CellsAfter(row[1..]) == " " + CellText(c1) + "";
    assert " " + CellText(c1) + "" == " " + CellText(c1);
  }

  /** A row of three cells. */
  lemma DrawThreeCells(c0: Cell, c1: Cell, c2: Cell)
    ensures RowText([c0, c1, c2]) == CellText(c0) + " " + CellText(c1) + " " + CellText(c2)
  {
    var row := [c0, c1, c2];
    assert row[1..] == [c1, c2] && row[1..][1..] == [c2] && row[1..][1..][1..] == [];
    assert CellsAfter(row[1..][1..]) == " " + CellText(c2) + "";
    assert " " + CellText(c2) + "" == " " + CellText(c2);
    assert CellsAfter(row[1..]) == " " + CellText(c1) + (" " + CellText(c2));
  }

  /** The sample drawing fills the three stacks the test expects, but only
      with the corrected count: sized by its two-cell first row, the crate
      `P` of the third row has no stack. */
  lemma SampleStacksFilled()
    ensures StackCount(SampleRows) == 3 && AsWrittenStackCount(SampleRows) == 2
    ensures StacksOf(SampleRows, StackCount(SampleRows)) == Ok(SampleStacks)
    ensures StacksOf(SampleRows, AsWrittenStackCount(SampleRows)) == Err(BadStackIndex)
  {
    var rows: seq<seq<Cell>> := SampleRows;
    assert rows[2][2] == Some('P');
    assert Column(rows, 0) == "NZ" by {
      assert rows[..2][..1] == rows[..1] && rows[..3][..2] == rows[..2] && rows[..1][..0] == [];
    }
    assert Column(rows, 1) == "DCM" by {
      assert rows[..2][..1] == rows[..1] && rows[..3][..2] == rows[..2] && rows[..1][..0] == [];
    }
    assert Column(rows, 2) == "P" by {
      assert rows[..2][..1] == rows[..1] && rows[..3][..2] == rows[..2] && rows[..1][..0] == [];
    }
    assert StacksOf(rows, 3).value == SampleStacks;
  }

  /** The parse_crates test: three stacks `NZ`, `DCM`, `P`, and the row of
      stack numbers left unread. */
  lemma SampleParseCrates()
    ensures var parsed := ParseRows(SampleDrawing + "\n 1   2   3");
      parsed == Some((SampleRows, "\n 1   2   3")) &&
      StacksOf(parsed.value.0, StackCount(parsed.value.0)) == Ok(SampleStacks)
  {
    SampleDrawingRows("\n 1   2   3");
    SampleStacksFilled();
  }

  /** The skip reaches the instructions right after the blank line. */
  lemma SampleSkip()
    ensures SkipPastBlankLine(SampleNumbers + SampleMoves) == Some(SampleMoves)
  {
    var s := SampleNumbers + SampleMoves;
    assert s[..14] == SampleNumbers;
    assert OccursAt(s, "\n\n", 12);
    forall j | 0 <= j < 12
      ensures !OccursAt(s, "\n\n", j)
    {
      assert s[j + 1] == SampleNumbers[j + 1];
    }
    IndexOfFirst(s, "\n\n", 12);
    assert s[14..] == SampleMoves;
  }

  /** The sample instructions, written out. */
  lemma SampleMovesText()
    ensures InstructionsText(SampleInstructions) + "" == SampleMoves
  {
    var lines := InstructionLines(SampleInstructions);
    SampleLines(lines);
    JoinFour(lines);
    assert InstructionsText(SampleInstructions) + "" == InstructionsText(SampleInstructions);
  }

  /** The sample instructions, one line each. */
  lemma SampleLines(lines: seq<string>)
    requires lines == InstructionLines(SampleInstructions)
    ensures |lines| == 4
    ensures lines[0] == "move 1 from 2 to 1" && lines[1] == "move 3 from 1 to 3"
    ensures lines[2] == "move 2 from 2 to 1" && lines[3] == "move 1 from 1 to 2"
  {
    SampleDigits();
    var ins := SampleInstructions;
    InstructionTextOf(ins[0], "1", "2", "1", lines[0]);
    InstructionTextOf(ins[1], "3", "1", "3", lines[1]);
    InstructionTextOf(ins[2], "2", "2", "1", lines[2]);
    InstructionTextOf(ins[3], "1", "1", "2", lines[3]);
  }

  /** An instruction whose numbers are written `a`, `f` and `t`. */
  lemma InstructionTextOf(ins: Instruction, a: string, f: string, t: string, line: string)
    requires NatToString(ins.amount) == a && NatToString(ins.from) == f && NatToString(ins.to) == t
    requires line == InstructionText(ins)
    ensures line == "move " + a + " from " + f + " to " + t
  {
  }

  lemma SampleDigits()
    ensures NatToString(1) == "1" && NatToString(2) == "2" && NatToString(3) == "3"
  {
  }

  /** Four lines joined by newlines. */
  lemma JoinFour(lines: seq<string>)
    requires |lines| == 4
    ensures Join(lines, "\n") == lines[0] + "\n" + lines[1] + "\n" + lines[2] + "\n" + lines[3]
  {
    var l1, l2, l3 := lines[1], lines[2], lines[3];
    assert lines[1..][1..] == lines[2..] && lines[2..][1..] == lines[3..] && |lines[3..]| == 1;
    assert Join(lines[2..], "\n") == l2 + "\n" + l3;
    assert Join(lines[1..], "\n") == l1 + "\n" + (l2 + "\n" + l3);
  }

  /** The parse_input test: the four sample instructions, in order. */
  lemma SampleInstructionsParsed()
    ensures ParseInstructions(SampleMoves) == (SampleInstructions, "")
  {
    SampleMovesText();
    ParseInstructionsText(SampleInstructions, "");
  }

  /** The whole sample input reads as the sample stacks and instructions. */
  lemma SampleParsed()
    ensures ParsedInput(SampleInput) == Ok((SampleStacks, SampleInstructions))
  {
    AppendAssoc(SampleDrawing, SampleNumbers, SampleMoves);
    SampleDrawingRows(SampleNumbers + SampleMoves);
    SampleSkip();
    SampleStacksFilled();
    SampleInstructionsParsed();
  }

  /** Each sample instruction carried out by each crane. */
  lemma SampleRunOneAtATimeStep3()
    ensures Move(OneAtATime, ["MC", "", "ZNDP"], SampleInstructions[3]) == Ok(["C", "M", "ZNDP"])
  {
    var s: Stacks := ["MC", "", "ZNDP"];
    assert s[0][1..] == "C" && s[0][..1] == "M";
    assert Reverse("M") == "M";
    var taken := s[0 := "C"];
    assert taken == ["C", "", "ZNDP"];
    assert "M" + taken[1] == "M";
    assert taken[1 := "M"] == ["C", "M", "ZNDP"];
  }

  lemma SampleRunOneAtATimeStep2()
    ensures Move(OneAtATime, ["", "CM", "ZNDP"], SampleInstructions[2]) == Ok(["MC", "", "ZNDP"])
  {
    var s: Stacks := ["", "CM", "ZNDP"];
    assert s[1][2..] == "" && s[1][..2] == "CM";
    assert Reverse("CM") == "MC";
    var taken := s[1 := ""];
    assert taken == ["", "", "ZNDP"];
    assert "MC" + taken[0] == "MC";
    assert taken[0 := "MC"] == ["MC", "", "ZNDP"];
  }

  lemma SampleRunOneAtATimeStep1()
    ensures Move(OneAtATime, ["DNZ", "CM", "P"], SampleInstructions[1]) == Ok(["", "CM", "ZNDP"])
  {
    var s: Stacks := ["DNZ", "CM", "P"];
    assert s[0][3..] == "" && s[0][..3] == "DNZ";
    assert Reverse("DNZ") == "ZND";
    var taken := s[0 := ""];
    assert taken == ["", "CM", "P"];
    assert "ZND" + taken[2] == "ZNDP";
    assert taken[2 := "ZNDP"] == ["", "CM", "ZNDP"];
  }

  lemma SampleRunOneAtATimeStep0()
    ensures Move(OneAtATime, ["NZ", "DCM", "P"], SampleInstructions[0]) == Ok(["DNZ", "CM", "P"])
  {
    var s: Stacks := ["NZ", "DCM", "P"];
    assert s[1][1..] == "CM" && s[1][..1] == "D";
    assert Reverse("D") == "D";
    var taken := s[1 := "CM"];
    assert taken == ["NZ", "CM", "P"];
    assert "D" + taken[0] == "DNZ";
    assert taken[0 := "DNZ"] == ["DNZ", "CM", "P"];
  }

  lemma SampleRunBatchStep3()
    ensures Move(Batch, ["CM", "", "DNZP"], SampleInstructions[3]) == Ok(["M", "C", "DNZP"])
  {
    var s: Stacks := ["CM", "", "DNZP"];
    assert s[0][1..] == "M" && s[0][..1] == "C";
    var taken := s[0 := "M"];
    assert taken == ["M", "", "DNZP"];
    assert "C" + taken[1] == "C";
    assert taken[1 := "C"] == ["M", "C", "DNZP"];
  }

  lemma SampleRunBatchStep2()
    ensures Move(Batch, ["", "CM", "DNZP"], SampleInstructions[2]) == Ok(["CM", "", "DNZP"])
  {
    var s: Stacks := ["", "CM", "DNZP"];
    assert s[1][2..] == "" && s[1][..2] == "CM";
    var taken := s[1 := ""];
    assert taken == ["", "", "DNZP"];
    assert "CM" + taken[0] == "CM";
    assert taken[0 := "CM"] == ["CM", "", "DNZP"];
  }

  lemma SampleRunBatchStep1()
    ensures Move(Batch, ["DNZ", "CM", "P"], SampleInstructions[1]) == Ok(["", "CM", "DNZP"])
  {
    var s: Stacks := ["DNZ", "CM", "P"];
    assert s[0][3..] == "" && s[0][..3] == "DNZ";
    var taken := s[0 := ""];
    assert taken == ["", "CM", "P"];
    assert "DNZ" + taken[2] == "DNZP";
    assert taken[2 := "DNZP"] == ["", "CM", "DNZP"];
  }

  lemma SampleRunBatchStep0()
    ensures Move(Batch, ["NZ", "DCM", "P"], SampleInstructions[0]) == Ok(["DNZ", "CM", "P"])
  {
    var s: Stacks := ["NZ", "DCM", "P"];
    assert s[1][1..] == "CM" && s[1][..1] == "D";
    var taken := s[1 := "CM"];
    assert taken == ["NZ", "CM", "P"];
    assert "D" + taken[0] == "DNZ";
    assert taken[0 := "DNZ"] == ["DNZ", "CM", "P"];
  }
  /** The sample moved by part 1's crane, instruction by instruction. */
  lemma SampleRunOneAtATime()
    ensures Run(OneAtATime, SampleStacks, SampleInstructions) == Ok(["C", "M", "ZNDP"])
  {
    var ins := SampleInstructions;
    SampleRunOneAtATimeStep3();
    assert Run(OneAtATime, ["MC", "", "ZNDP"], ins[3..]) == Ok(["C", "M", "ZNDP"]);
    SampleRunOneAtATimeStep2();
    assert Run(OneAtATime, ["", "CM", "ZNDP"], ins[2..]) == Ok(["C", "M", "ZNDP"]) by {
      assert ins[2..][1..] == ins[3..];
    }
    SampleRunOneAtATimeStep1();
    assert Run(OneAtATime, ["DNZ", "CM", "P"], ins[1..]) == Ok(["C", "M", "ZNDP"]) by {
      assert ins[1..][1..] == ins[2..];
    }
    SampleRunOneAtATimeStep0();
  }

  /** The sample moved by part 2's crane, instruction by instruction. */
  lemma SampleRunBatch()
    ensures Run(Batch, SampleStacks, SampleInstructions) == Ok(["M", "C", "DNZP"])
  {
    var ins := SampleInstructions;
    SampleRunBatchStep3();
    assert Run(Batch, ["CM", "", "DNZP"], ins[3..]) == Ok(["M", "C", "DNZP"]);
    SampleRunBatchStep2();
    assert Run(Batch, ["", "CM", "DNZP"], ins[2..]) == Ok(["M", "C", "DNZP"]) by {
      assert ins[2..][1..] == ins[3..];
    }
    SampleRunBatchStep1();
    assert Run(Batch, ["DNZ", "CM", "P"], ins[1..]) == Ok(["M", "C", "DNZP"]) by {
      assert ins[1..][1..] == ins[2..];
    }
    SampleRunBatchStep0();
  }

  /** The top crates of the final stacks of both cranes. */
  lemma SampleTops()
    ensures TopCrates(["C", "M", "ZNDP"]) == Ok("CMZ")
    ensures TopCrates(["M", "C", "DNZP"]) == Ok("MCD")
  {
    var one: Stacks := ["C", "M", "ZNDP"];
    assert one[0] != [] && one[1] != [] && one[2] != [];
    var t := TopCrates(one).value;
    assert t[0] == 'C' && t[1] == 'M' && t[2] == 'Z';
    assert t == "CMZ";
    var batch: Stacks := ["M", "C", "DNZP"];
    assert batch[0] != [] && batch[1] != [] && batch[2] != [];
    var u := TopCrates(batch).value;
    assert u[0] == 'M' && u[1] == 'C' && u[2] == 'D';
    assert u == "MCD";
  }

  /** End to end, the sample gives "CMZ" for part 1. */
  lemma SampleAnswerPart1()
    ensures Answer(OneAtATime, SampleInput) == Ok("CMZ")
  {
    assert Answer(OneAtATime, SampleInput) == TopCrates(["C", "M", "ZNDP"]) by {
      SampleParsed();
      SampleRunOneAtATime();
    }
    SampleTops();
  }

  /** End to end, the sample gives "MCD" for part 2. */
  lemma SampleAnswerPart2()
    ensures Answer(Batch, SampleInput) == Ok("MCD")
  {
    assert Answer(Batch, SampleInput) == TopCrates(["M", "C", "DNZP"]) by {
      SampleParsed();
      SampleRunBatch();
    }
    SampleTops();
  }

  /** As written, the sample input aborts with an index out of range
      instead of answering. */
  lemma SampleAsWrittenAborts()
    ensures ParsedInputAsWritten(SampleInput) == Err(BadStackIndex)
  {
    AppendAssoc(SampleDrawing, SampleNumbers, SampleMoves);
    SampleDrawingRows(SampleNumbers + SampleMoves);
    SampleStacksFilled();
  }
}
