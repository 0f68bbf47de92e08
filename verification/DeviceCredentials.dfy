/**
 The pair that keeps a visitor signed in, and the store it is kept in (src/client/devicecredential.cpp).
 */
module DeviceCredentials {
  import opened Prelude

  /** The pair as the edge issues it: the family it names, and the live secret for it. */
  datatype Held = Held(id: string, secret: string)

  const NOTHING := Held("", "")

  predicate IsValid(held: Held) {
    held.id != "" && held.secret != ""
  }

  // ---------------------------------------------------------------------------------------------
  // The two halves as one blob
  // ---------------------------------------------------------------------------------------------

  function Packed(held: Held): string {
    held.id + "\n" + held.secret
  }

  /** QByteArray::indexOf, from position `from` on. */
  function IndexOf(blob: string, c: char, from: nat): (index: int)
    requires from <= |blob|
    ensures index < 0 <==> c !in blob[from..]
    ensures index >= 0 ==> from <= index < |blob| && blob[index] == c && c !in blob[from..index]
    decreases |blob| - from
  {
    if from == |blob| then -1
    else if blob[from] == c then from
    else
      assert blob[from..] == [blob[from]] + blob[from + 1..];
      var index := IndexOf(blob, c, from + 1);
      assert index >= 0 ==> blob[from..index] == [blob[from]] + blob[from + 1..index];
      index
  }

  function Unpacked(blob: string): Held {
    var separator := IndexOf(blob, '\n', 0);
    if separator <= 0 then NOTHING else Held(blob[..separator], blob[separator + 1..])
  }

  /** A pair with a name survives the blob exactly when the name has no newline in it; the secret may. */
  lemma PackingRoundTrips(held: Held)
    requires held.id != ""
    ensures Unpacked(Packed(held)) == held <==> '\n' !in held.id
  {
    var blob := Packed(held);
    var separator := IndexOf(blob, '\n', 0);
    assert blob[|held.id|] == '\n';
    assert blob[..|held.id|] == held.id && blob[|held.id| + 1..] == held.secret;
    if '\n' in held.id {
      var i :| 0 <= i < |held.id| && held.id[i] == '\n';
      assert blob[i] == '\n' && separator <= i;
      if separator > 0 {
        assert |Unpacked(blob).id| < |held.id|;
      }
    } else {
      assert separator >= 0 && blob[0..separator] == blob[..separator];
      assert separator == |held.id|;
    }
  }

  /** Any other blob names no pair, or is the blob of the one it names. */
  lemma UnpackedIsThePair(blob: string)
    ensures Unpacked(blob) == NOTHING <==> '\n' !in blob || blob[0] == '\n'
    ensures Unpacked(blob) != NOTHING ==>
              var held := Unpacked(blob); held.id != "" && '\n' !in held.id && held.id + "\n" + held.secret == blob
  {
    var at := IndexOf(blob, '\n', 0);
    assert blob[0..] == blob;
    if at > 0 {
      assert blob[0..at] == blob[..at];
      assert blob == blob[..at] + [blob[at]] + blob[at + 1..];
    }
  }

  // ---------------------------------------------------------------------------------------------
  // The store, behind a deadline
  // ---------------------------------------------------------------------------------------------

  /** How the platform's store answers one call: it does it, it refuses, or it is still at it when the
      deadline passes, having done it or not. */
  datatype Response = Done | Refused | Late(landed: bool)

  /** The call takes effect, whether or not its answer comes in time. */
  predicate Lands(r: Response) {
    r.Done? || (r.Late? && r.landed)
  }

  /** How it would answer each kind of call, while one event is handled. */
  datatype Keyring = Keyring(load: Response, store: Response, erase: Response)

  datatype Device = Device(available: bool, stored: Option<string>)

  function Erased(d: Device, k: Keyring): Device {
    if d.available && Lands(k.erase) then d.(stored := None) else d
  }

  /** A write that failed, or may have, is followed by an erase: the generation left behind is retired. */
  function Saved(d: Device, held: Held, k: Keyring): Device {
    if !d.available || !IsValid(held) then d
    else if k.store.Done? then d.(stored := Some(Packed(held)))
    else if k.store.Refused? then Erased(d, k)
    else Erased(if k.store.landed then d.(stored := Some(Packed(held))) else d, k).(available := false)
  }

  function Loaded(d: Device, k: Keyring): (Device, Held) {
    if !d.available then (d, NOTHING)
    else if k.load.Late? then (d.(available := false), NOTHING)
    else if k.load.Refused? || d.stored.None? then (d, NOTHING)
    else (d, Unpacked(d.stored.value))
  }

  /** What is stored is nothing, or the given pair. */
  predicate KeepsOnly(d: Device, held: Held) {
    d.stored.None? || d.stored.value == Packed(held)
  }

  /** A save to the store leaves nothing of an older pair behind: there is none, or the store can be
      reached and takes the write or the erase that follows a failed one. */
  predicate Replaces(d: Device, held: Held, k: Keyring) {
    KeepsOnly(d, held) || (d.available && (Lands(k.store) || Lands(k.erase)))
  }

  /** An erase leaves nothing behind. */
  predicate Erases(d: Device, k: Keyring) {
    d.stored == None || (d.available && Lands(k.erase))
  }

  lemma SaveLeavesNothingStale(d: Device, held: Held, k: Keyring)
    requires IsValid(held)
    ensures KeepsOnly(Saved(d, held, k), held) <==> Replaces(d, held, k)
    ensures Erased(d, k).stored == None <==> Erases(d, k)
  {
  }

  /** A pair that was written is the pair a later load gives back, exactly when its name has no newline. */
  lemma SavedIsLoaded(d: Device, held: Held, k: Keyring, later: Keyring)
    requires d.available && held.id != "" && held.secret != "" && k.store.Done? && later.load.Done?
    ensures Loaded(Saved(d, held, k), later).1 == held <==> '\n' !in held.id
  {
    PackingRoundTrips(held);
  }

  /** A store that can neither write nor erase is left holding a retired generation. */
  lemma ARefusedEraseLeavesAStalePair()
    ensures var d := Device(true, Some(Packed(Held("family", "first"))));
            var after := Saved(d, Held("family", "second"), Keyring(Done, Refused, Refused));
            after == d && !KeepsOnly(after, Held("family", "second"))
  {
    assert Packed(Held("family", "first"))[7] == 'f' && Packed(Held("family", "second"))[7] == 's';
  }

  class DeviceCredential {
    var available: bool
    var stored: Option<string>

    constructor (available: bool, stored: Option<string>)
      ensures View() == Device(available, stored)
    {
      this.available, this.stored := available, stored;
    }

    function View(): Device
      reads this
    {
      Device(available, stored)
    }

    /** The platform's own write and erase. */
    method Write(blob: string, response: Response) returns (ok: bool)
      modifies this`stored
      ensures ok == response.Done?
      ensures stored == if Lands(response) then Some(blob) else old(stored)
    {
      ok := response.Done?;
      if Lands(response) {
        stored := Some(blob);
      }
    }

    method Erase(k: Keyring)
      modifies this`stored
      ensures View() == Erased(old(View()), k)
      ensures stored == if available && Lands(k.erase) then None else old(stored)
    {
      if !available {
        return;
      }
      if Lands(k.erase) {
        stored := None;
      }
    }

    /** True exactly when the pair is stored. A refused write is followed by an erase, and so is one that may have
        come too late, which writes the store off. */
    method Save(held: Held, k: Keyring) returns (ok: bool)
      modifies this
      ensures View() == Saved(old(View()), held, k)
      ensures ok <==> old(available) && held.id != "" && held.secret != "" && k.store.Done?
      ensures ok ==> stored == Some(held.id + "\n" + held.secret) && available
      ensures !old(available) || held.id == "" || held.secret == "" ==> View() == old(View())
      ensures old(available) && held.id != "" && held.secret != "" && !ok ==>
                && (Lands(k.erase) ==> stored == None)
                && (!Lands(k.erase) ==>
                      stored == if Lands(k.store) then Some(held.id + "\n" + held.secret) else old(stored))
                && available == k.store.Refused?
    {
      if !available || !IsValid(held) {
        return false;
      }
      ok := Write(Packed(held), k.store);
      if k.store.Late? {
        this.Erase(k);
        available := false;
        return false;
      }
      if !ok {
        this.Erase(k);
      }
    }

    method Load(k: Keyring) returns (held: Held)
      modifies this`available
      ensures (View(), held) == Loaded(old(View()), k)
      ensures held == if old(available) && k.load.Done? && stored.Some? then Unpacked(stored.value) else NOTHING
      ensures available == (old(available) && !k.load.Late?)
    {
      if !available {
        return NOTHING;
      }
      if k.load.Late? {
        available := false;
        return NOTHING;
      }
      if k.load.Refused? || stored.None? {
        return NOTHING;
      }
      return Unpacked(stored.value);
    }
  }
}
