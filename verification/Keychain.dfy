/**
 The macOS store (src/client/keychainstore.cpp): one item, in whichever of two keychains this build may use.
 */
module Keychain {
  import opened Prelude

  /** What the Keychain calls answer, other errors left aside. */
  datatype Status = Success | NotFound | Duplicate | MissingEntitlement

  /** The item in the two keychains of the machine, and how this build was signed. */
  datatype Items = Items(entitled: bool, guarded: Option<string>, file: Option<string>)

  // ---------------------------------------------------------------------------------------------
  // The store as a value: the items, and which keychain this process has settled on
  // ---------------------------------------------------------------------------------------------

  /** The item a build signed this way would find. */
  function Visible(items: Items): Option<string> {
    if items.entitled && items.guarded.Some? then items.guarded else items.file
  }

  /** A signed build settles on the file-based keychain only while the other one is empty. */
  predicate Settled(items: Items, dataProtection: bool) {
    items.entitled && !dataProtection ==> items.guarded.None?
  }

  /** `masked`: reading a keychain out of reach answers that the item is not there, not that it is out of reach. */
  datatype Operation = Store(secret: string) | Load(masked: bool) | Erase | Restart

  datatype Machine = Machine(items: Items, dataProtection: bool)

  function Step(m: Machine, operation: Operation): Machine {
    match operation
    case Store(secret) =>
      if m.dataProtection && m.items.entitled
      then m.(items := m.items.(guarded := Some(secret)))
      else Machine(m.items.(file := Some(secret)), false)
    case Load(masked) =>
      if m.dataProtection && !(m.items.entitled && m.items.guarded.Some?)
         && (m.items.file.Some? || (!m.items.entitled && !masked))
      then m.(dataProtection := false) else m
    case Erase =>
      m.(items := m.items.(guarded := if m.items.entitled then None else m.items.guarded, file := None))
    case Restart => m.(dataProtection := true)
  }

  /** What the operation does to a single cell. */
  function CellStep(cell: Option<string>, operation: Operation): Option<string> {
    match operation
    case Store(secret) => Some(secret)
    case Erase => None
    case _ => cell
  }

  function Run(m: Machine, operations: seq<Operation>): Machine {
    if operations == [] then m else Step(Run(m, operations[..|operations| - 1]), operations[|operations| - 1])
  }

  function CellRun(cell: Option<string>, operations: seq<Operation>): Option<string> {
    if operations == [] then cell
    else CellStep(CellRun(cell, operations[..|operations| - 1]), operations[|operations| - 1])
  }

  /** Through any number of calls and restarts the two keychains behave as one cell that outlives the process. */
  lemma {:induction false} RefinesACell(m: Machine, operations: seq<Operation>)
    requires Settled(m.items, m.dataProtection)
    ensures var after := Run(m, operations);
            && Settled(after.items, after.dataProtection) && after.items.entitled == m.items.entitled
            && Visible(after.items) == CellRun(Visible(m.items), operations)
  {
    if operations != [] {
      RefinesACell(m, operations[..|operations| - 1]);
    }
  }

  /** And what was erased stays gone. */
  lemma {:induction false} ErasedStaysGone(m: Machine, before: seq<Operation>, idle: seq<Operation>)
    requires Settled(m.items, m.dataProtection) && forall i :: 0 <= i < |idle| ==> idle[i].Load? || idle[i].Restart?
    ensures Visible(Run(m, before + [Erase] + idle).items) == None
    decreases |idle|
  {
    var all := before + [Erase] + idle;
    RefinesACell(m, all);
    if idle == [] {
      assert all == before + [Erase];
    } else {
      var front := idle[..|idle| - 1];
      assert all[..|all| - 1] == before + [Erase] + front;
      RefinesACell(m, before + [Erase] + front);
      ErasedStaysGone(m, before, front);
    }
  }

  /** What was stored last is what a later launch finds, however many loads and restarts lie between. */
  lemma {:induction false} LastStoreIsFound(m: Machine, before: seq<Operation>, secret: string, idle: seq<Operation>)
    requires Settled(m.items, m.dataProtection) && forall i :: 0 <= i < |idle| ==> idle[i].Load? || idle[i].Restart?
    ensures Visible(Run(m, before + [Store(secret)] + idle).items) == Some(secret)
    decreases |idle|
  {
    var all := before + [Store(secret)] + idle;
    RefinesACell(m, all);
    if idle == [] {
      assert all == before + [Store(secret)];
    } else {
      var front := idle[..|idle| - 1];
      assert all[..|all| - 1] == before + [Store(secret)] + front;
      RefinesACell(m, before + [Store(secret)] + front);
      LastStoreIsFound(m, before, secret, front);
    }
  }

  // ---------------------------------------------------------------------------------------------
  // The objects
  // ---------------------------------------------------------------------------------------------

  /** The machine's keychains. Reading the guarded one from an unsigned build answers either way. */
  class Keychains {
    const entitled: bool
    var guarded: Option<string>
    var file: Option<string>

    constructor (entitled: bool, guarded: Option<string>, file: Option<string>)
      ensures View() == Items(entitled, guarded, file)
    {
      this.entitled, this.guarded, this.file := entitled, guarded, file;
    }

    function View(): Items
      reads this
    {
      Items(entitled, guarded, file)
    }

    predicate Reaches(dataProtection: bool) {
      !dataProtection || entitled
    }

    method Add(dataProtection: bool, secret: string) returns (status: Status)
      modifies this
      ensures status == if !Reaches(dataProtection) then MissingEntitlement
                        else if old(if dataProtection then guarded else file).Some? then Duplicate else Success
      ensures View() == if status != Success then old(View())
                        else if dataProtection then old(View()).(guarded := Some(secret))
                        else old(View()).(file := Some(secret))
    {
      if !Reaches(dataProtection) {
        return MissingEntitlement;
      }
      if dataProtection {
        if guarded.Some? {
          return Duplicate;
        }
        guarded := Some(secret);
      } else {
        if file.Some? {
          return Duplicate;
        }
        file := Some(secret);
      }
      return Success;
    }

    method Update(dataProtection: bool, secret: string) returns (status: Status)
      requires Reaches(dataProtection) && (if dataProtection then guarded else file).Some?
      modifies this
      ensures status == Success
      ensures View() == if dataProtection then old(View()).(guarded := Some(secret))
                        else old(View()).(file := Some(secret))
    {
      if dataProtection {
        guarded := Some(secret);
      } else {
        file := Some(secret);
      }
      return Success;
    }

    method Copy(dataProtection: bool, masked: bool) returns (status: Status, found: Option<string>)
      ensures found == if !Reaches(dataProtection) then None else if dataProtection then guarded else file
      ensures status == if found.Some? then Success
                        else if !Reaches(dataProtection) && !masked then MissingEntitlement
                        else NotFound
    {
      if !Reaches(dataProtection) {
        return if masked then NotFound else MissingEntitlement, None;
      }
      found := if dataProtection then guarded else file;
      status := if found.Some? then Success else NotFound;
    }

    method Delete(dataProtection: bool) returns (status: Status)
      modifies this
      ensures status == if !Reaches(dataProtection) then MissingEntitlement
                        else if old(if dataProtection then guarded else file).None? then NotFound else Success
      ensures View() == if !Reaches(dataProtection) then old(View())
                        else if dataProtection then old(View()).(guarded := None) else old(View()).(file := None)
    {
      if !Reaches(dataProtection) {
        return MissingEntitlement;
      }
      if dataProtection {
        status := if guarded.None? then NotFound else Success;
        guarded := None;
      } else {
        status := if file.None? then NotFound else Success;
        file := None;
      }
    }
  }

  /** One process's store. */
  class KeychainStore {
    const keychains: Keychains
    var dataProtection: bool

    constructor (keychains: Keychains)
      ensures this.keychains == keychains && Valid() && View() == Machine(keychains.View(), true)
    {
      this.keychains := keychains;
      dataProtection := true;
    }

    function View(): Machine
      reads this, keychains
    {
      Machine(keychains.View(), dataProtection)
    }

    ghost predicate Valid()
      reads this, keychains
    {
      Settled(keychains.View(), dataProtection)
    }

    method Store(secret: string) returns (ok: bool)
      requires Valid()
      modifies this, keychains
      ensures Valid() && View() == Step(old(View()), Operation.Store(secret))
      ensures ok && Visible(keychains.View()) == Some(secret)
      ensures old(dataProtection) && keychains.entitled ==>
                keychains.guarded == Some(secret) && keychains.file == old(keychains.file)
      ensures !(old(dataProtection) && keychains.entitled) ==>
                keychains.file == Some(secret) && keychains.guarded == old(keychains.guarded)
    {
      var status := keychains.Add(dataProtection, secret);
      if status == MissingEntitlement && dataProtection {
        dataProtection := false;
        status := keychains.Add(false, secret);
      }
      if status == Duplicate {
        status := keychains.Update(dataProtection, secret);
      }
      ok := status == Success;
    }

    method Load(masked: bool) returns (secret: Option<string>)
      requires Valid()
      modifies this
      ensures Valid() && View() == Step(old(View()), Operation.Load(masked))
      ensures secret == Visible(keychains.View())
    {
      var status, found := keychains.Copy(dataProtection, masked);
      if dataProtection && found.None? {
        var fallback;
        fallback, found := keychains.Copy(false, masked);
        if found.Some? || status == MissingEntitlement {
          dataProtection := false;
          status := fallback;
        }
      }
      if status == NotFound {
        return None;
      }
      if status != Success || found.None? {
        return None;
      }
      return found;
    }

    /** Both keychains, whichever holds the item. */
    method Erase() returns (ok: bool)
      requires Valid()
      modifies keychains
      ensures Valid() && View() == Step(old(View()), Operation.Erase)
      ensures ok && Visible(keychains.View()) == None
      ensures keychains.file == None
      ensures keychains.guarded == if keychains.entitled then None else old(keychains.guarded)
    {
      var worst := Success;
      ghost var was := keychains.View();
      for i := 0 to 2
        invariant worst == Success && keychains.View().entitled == was.entitled
        invariant keychains.View() ==
                  Items(was.entitled, if i > 0 && was.entitled then None else was.guarded,
                        if i > 1 then None else was.file)
      {
        var status := keychains.Delete(i == 0);
        if status != Success && status != NotFound && status != MissingEntitlement {
          worst := status;
        }
      }
      ok := worst == Success;
    }
  }
}
