/** How one file behaves across failed writes, process crashes and power loss.

    Every durable file of SlashIt is replaced as a whole. A save either is
    confirmed, leaves the file untouched, or replaces the file without being
    able to confirm that the replacement reached stable storage. */
module Durability {
  datatype Option<+T> = None | Some(value: T)
  datatype Result<+T, +E> = Ok(value: T) | Err(error: E)

  /** The three answers a save can give. */
  datatype Save = Confirmed | NotPublished | PublishedNotDurable

  /** Whether the file was replaced, whatever the caller was told. */
  predicate Published(save: Save) {
    !save.NotPublished?
  }

  /** `visible` is what every reader sees now. `possible` holds each version
      that a power loss may still leave behind. */
  datatype File<T(==)> = File(visible: T, possible: set<T>) {
    predicate Valid() {
      visible in possible
    }

    function Write(content: T, save: Save): (f: File<T>)
      ensures Valid() ==> f.Valid()
      ensures f.visible == if Published(save) then content else visible
      ensures save.Confirmed? ==> f.possible == {content}
      ensures forall v :: v in f.possible ==> v == content || v in possible
    {
      match save
      case Confirmed => File(content, {content})
      case NotPublished => this
      case PublishedNotDurable => File(content, possible + {content})
    }

    /** Power is lost and the disk turns out to hold `survivor`. */
    function Lose(survivor: T): File<T>
      requires survivor in possible
    {
      File(survivor, {survivor})
    }
  }

  /** Write a file several times and then lose power. Whatever survives was
      written after the last confirmed save, or is the content of that save. */
  function WriteAll<T(==)>(f: File<T>, writes: seq<(T, Save)>): File<T>
    decreases |writes|
  {
    if writes == [] then f
    else WriteAll(f.Write(writes[0].0, writes[0].1), writes[1..])
  }

  lemma {:induction false} SurvivorIsRecent<T>(f: File<T>, writes: seq<(T, Save)>, k: nat, survivor: T)
    requires k < |writes| && writes[k].1.Confirmed?
    requires survivor in WriteAll(f, writes).possible
    ensures exists i :: k <= i < |writes| && Published(writes[i].1) && writes[i].0 == survivor
    decreases |writes|
  {
    if k == 0 {
      SurvivorIsWritten(f.Write(writes[0].0, writes[0].1), writes[1..], survivor);
      if survivor != writes[0].0 {
        var i :| 0 <= i < |writes[1..]| && Published(writes[1..][i].1) && writes[1..][i].0 == survivor;
        assert writes[i + 1] == writes[1..][i];
      }
    } else {
      SurvivorIsRecent(f.Write(writes[0].0, writes[0].1), writes[1..], k - 1, survivor);
      var i :| k - 1 <= i < |writes[1..]| && Published(writes[1..][i].1) && writes[1..][i].0 == survivor;
      assert writes[i + 1] == writes[1..][i];
    }
  }

  lemma {:induction false} SurvivorIsWritten<T>(f: File<T>, writes: seq<(T, Save)>, survivor: T)
    requires survivor in WriteAll(f, writes).possible
    ensures survivor in f.possible
      || exists i :: 0 <= i < |writes| && Published(writes[i].1) && writes[i].0 == survivor
    decreases |writes|
  {
    if writes != [] {
      SurvivorIsWritten(f.Write(writes[0].0, writes[0].1), writes[1..], survivor);
      if i :| 0 <= i < |writes[1..]| && Published(writes[1..][i].1) && writes[1..][i].0 == survivor {
        assert writes[i + 1] == writes[1..][i];
      }
    }
  }
}
