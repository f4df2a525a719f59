/** The directory of catalog packets: writes that only ever add. */
module CatalogPackets {
  import opened Outcomes

  /** A catalog file: unreadable, not an object, or a packet with the order and work item it claims. */
  datatype Stored = Unreadable | NotAnObject | Packet(order: int, item: string, body: string)

  type Directory = map<string, Stored>

  datatype Refusal = PacketInvalid | Conflict | OrderTaken | ItemTaken

  datatype Written = Created | Unchanged

  predicate OtherWith(dir: Directory, filename: string, order: int) {
    exists name :: name in dir && name != filename && dir[name].Packet? && dir[name].order == order
  }

  predicate OtherFor(dir: Directory, filename: string, item: string) {
    exists name :: name in dir && name != filename && dir[name].Packet? && dir[name].item == item
  }

  /** What a write leaves in the directory. */
  function Wrote(dir: Directory, filename: string, packet: Stored, valid: bool): Directory
    requires packet.Packet?
  {
    if valid && filename !in dir && !OtherWith(dir, filename, packet.order) && !OtherFor(dir, filename, packet.item)
    then dir[filename := packet] else dir
  }

  class CatalogDirectory {
    var files: Directory

    constructor ()
      ensures files == map[]
    {
      files := map[];
    }

    /** Writes a packet under a new name; an identical file is left alone, and nothing is overwritten. */
    method WritePacket(filename: string, packet: Stored, valid: bool) returns (r: Result<Written, Refusal>)
      requires packet.Packet?
      modifies this
      ensures r == Ok(Created) <==> valid && filename !in old(files) && !OtherWith(old(files), filename, packet.order) && !OtherFor(old(files), filename, packet.item)
      ensures r == Ok(Unchanged) <==> valid && filename in old(files) && old(files)[filename] == packet
      ensures files == Wrote(old(files), filename, packet, valid)
    {
      if !valid {
        return Err(PacketInvalid);
      }
      if filename in files {
        return if files[filename] == packet then Ok(Unchanged) else Err(Conflict);
      }
      var names := files.Keys;
      ghost var seen: set<string> := {};
      while names != {}
        invariant names + seen == files.Keys && filename !in files && files == old(files)
        invariant forall name :: name in seen && files[name].Packet? ==> files[name].order != packet.order && files[name].item != packet.item
        decreases |names|
      {
        var name :| name in names;
        if files[name].Packet? {
          if files[name].order == packet.order {
            return Err(OrderTaken);
          }
          if files[name].item == packet.item {
            return Err(ItemTaken);
          }
        }
        names, seen := names - {name}, seen + {name};
      }
      files := files[filename := packet];
      r := Ok(Created);
    }
  }

  /** No two packets share an order or a work item. */
  predicate Unique(dir: Directory) {
    forall a, b :: a in dir && b in dir && a != b && dir[a].Packet? && dir[b].Packet? ==> dir[a].order != dir[b].order && dir[a].item != dir[b].item
  }

  datatype Request = Request(filename: string, packet: Stored, valid: bool)

  function AfterAll(dir: Directory, requests: seq<Request>): Directory
    requires forall i :: 0 <= i < |requests| ==> requests[i].packet.Packet?
    decreases |requests|
  {
    if requests == [] then dir
    else AfterAll(Wrote(dir, requests[0].filename, requests[0].packet, requests[0].valid), requests[1..])
  }

  /** Over any writes, orders and work items stay unique, and no file is ever changed or removed. */
  lemma {:induction false} WritesOnlyAdd(dir: Directory, requests: seq<Request>)
    requires Unique(dir) && forall i :: 0 <= i < |requests| ==> requests[i].packet.Packet?
    ensures Unique(AfterAll(dir, requests))
    ensures forall name :: name in dir ==> name in AfterAll(dir, requests) && AfterAll(dir, requests)[name] == dir[name]
    decreases |requests|
  {
    if requests != [] {
      var next := Wrote(dir, requests[0].filename, requests[0].packet, requests[0].valid);
      assert Unique(next);
      WritesOnlyAdd(next, requests[1..]);
    }
  }
}
