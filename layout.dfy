/**
 * The star model's logical-process layout (`main`): the master at global id
 * 0, each machine at an even id 2, 4, ..., 2 * machineAmount, and the link
 * that connects the master to a machine at the odd id just below it. The
 * layout assigns each local slot of a processing element one entry of the
 * `lps_type` table, either sequentially (one node holds every logical
 * process) or distributed over several nodes, where slots past the highest
 * machine id are filled with dummies.
 *
 * `tw_lp_settype(i, t)` is modelled as writing the tag `t` into slot `i` of
 * a per-node array that `tw_define_lps` allocates; the layout methods return
 * the array's final contents.
 */
module Layout {
  import opened Unsigned

  /** The entries of `lps_type`, in table order, and `Unset` for a slot whose type has not been set yet. */
  datatype LpType = Unset | Master | Link | Machine | Switch | Dummy

  /** The largest machine amount whose `2 * m + 1` logical processes still fit an unsigned 32-bit count. */
  const MaxMachineAmount: nat := 0x7FFF_FFFF

  /** `highest_machine_id`: the largest machine id, the last entry of the master's slave list. */
  function HighestMachineId(m: nat): (r: nat)
    ensures r % 2 == 0
    ensures m > 0 ==> r == SlaveIds(m)[m - 1]
    ensures forall j :: 0 <= j < m ==> SlaveIds(m)[j] <= r
  {
    2 * m
  }

  /** `nlp`: the master, `m` links and `m` machines. */
  function LpCount(m: nat): (r: nat)
    ensures r == 1 + |LinkRegistrations(m)| + |SlaveIds(m)|
    ensures r % 2 == 1 && r == HighestMachineId(m) + 1
  {
    2 * m + 1
  }

  /**
   * `highest_link_id`: `g_star_machine_amount * 2` on the unsigned 32-bit
   * machine amount, then minus one as a `tw_lpid`. It is the highest link id
   * for 1 up to `MaxMachineAmount` machines; when the product wraps to 0
   * (0 machines, or 2^31) the subtraction wraps to the largest id.
   */
  function HighestLinkId(m: u32): (r: u64)
    ensures 1 <= m <= MaxMachineAmount ==> r == HighestMachineId(m) - 1
    ensures m == 0 || m == MaxMachineAmount + 1 ==> r == U64_MODULUS - 1
    ensures m > MaxMachineAmount + 1 ==> r == 2 * m - U32_MODULUS - 1
  {
    Sub64((2 * m) % U32_MODULUS, 1)
  }

  function Min(a: int, b: int): int
  {
    if a <= b then a else b
  }

  function Max(a: int, b: int): int
  {
    if a <= b then b else a
  }

  /** `mapping`: the processing element hosting global id `gid` when each holds `lpsPerPe` logical processes. */
  function Mapping(gid: nat, lpsPerPe: nat): (pe: nat)
    requires lpsPerPe > 0
    ensures pe * lpsPerPe <= gid < pe * lpsPerPe + lpsPerPe
  {
    gid / lpsPerPe
  }

  /** `nlp_per_pe`: the ceiling of `nlp / nnodes`, the fewest slots per node that hold all `nlp` processes. */
  function LpsPerPe(nlp: nat, nnodes: nat): (per: nat)
    requires nnodes >= 1
    ensures per * nnodes >= nlp
    ensures per > 0 ==> (per - 1) * nnodes < nlp
    ensures per <= nlp
  {
    var q := (nlp + nnodes - 1) / nnodes;
    CeilingDivision(nlp, nnodes, q);
    q
  }

  lemma CeilingDivision(nlp: nat, nnodes: nat, q: nat)
    requires nnodes >= 1 && q == (nlp + nnodes - 1) / nnodes
    ensures q * nnodes >= nlp
    ensures q > 0 ==> (q - 1) * nnodes < nlp
    ensures q <= nlp
  {
    var r := (nlp + nnodes - 1) % nnodes;
    var qn := q * nnodes;
    assert nlp + nnodes - 1 == qn + r && 0 <= r < nnodes;
    if q > 0 {
      assert (q - 1) * nnodes == qn - nnodes;
      MulMonotone(1, nnodes, q - 1);
    }
  }

  lemma MulMonotone(a: nat, b: nat, c: nat)
    requires a <= b
    ensures a * c <= b * c
  {
  }

  /** The type the star layout intends for global id `gid`. */
  function GidType(m: nat, gid: nat): LpType
  {
    if gid == 0 then Master
    else if gid > HighestMachineId(m) then Dummy
    else if gid % 2 == 1 then Link
    else Machine
  }

  /**
   * The type the distributed loop sets in slot `i` of node `k` with `per`
   * slots per node. On node 0, slot 0 is the master and the loop starts at
   * slot 1 with `current_gid` still 0, so the dummy test there reads `i - 1`
   * while link and machine are told apart by the parity of `i`. On the
   * other nodes both tests read the slot's global id.
   */
  function SlotType(m: nat, k: nat, per: nat, i: nat): LpType
  {
    if k == 0 then
      if i == 0 then Master
      else if i - 1 > HighestMachineId(m) then Dummy
      else if i % 2 == 1 then Link
      else Machine
    else
      var gid := k * per + i;
      if gid > HighestMachineId(m) then Dummy
      else if gid % 2 == 1 then Link
      else Machine
  }

  /** The slots of node `k` as the distributed loop leaves them. */
  function NodeLayout(m: nat, k: nat, per: nat): seq<LpType>
  {
    seq(per, i requires 0 <= i < per => SlotType(m, k, per, i))
  }

  /** The number of slots given the dummy type. */
  function CountDummies(s: seq<LpType>): nat
  {
    if |s| == 0 then 0
    else CountDummies(s[..|s| - 1]) + (if s[|s| - 1] == Dummy then 1 else 0)
  }

  lemma CountDummiesSnoc(s: seq<LpType>, t: LpType)
    ensures CountDummies(s + [t]) == CountDummies(s) + (if t == Dummy then 1 else 0)
  {
    assert (s + [t])[..|s|] == s;
  }

  /**
   * The current_gid lag on node 0 is harmless: a node holds at most `nlp`
   * slots, so on node 0 no slot reaches the dummy test, and on every node
   * each slot gets the type its global id `k * per + i` calls for.
   */
  lemma NodeLayoutMatchesGids(m: nat, nnodes: nat, k: nat)
    requires nnodes >= 1
    ensures var per := LpsPerPe(LpCount(m), nnodes);
            forall i :: 0 <= i < per ==> SlotType(m, k, per, i) == GidType(m, k * per + i)
  {
    var per := LpsPerPe(LpCount(m), nnodes);
    if k > 0 {
      MulMonotone(1, k, per);
    }
  }

  /** Slots given the dummy type are exactly those from index `t` on; then there are `|s| - t` of them. */
  lemma {:induction false} CountThreshold(s: seq<LpType>, t: nat)
    requires forall i :: 0 <= i < |s| ==> (s[i] == Dummy <==> i >= t)
    ensures CountDummies(s) == |s| - Min(t, |s|)
  {
    if |s| > 0 {
      var prefix := s[..|s| - 1];
      assert forall i :: 0 <= i < |prefix| ==> prefix[i] == s[i];
      CountThreshold(prefix, t);
    }
  }

  /** The real (non-dummy) logical processes node `k` hosts: what is left of `nlp` after the nodes before it, at most `per`. */
  function HostedLps(nlp: nat, per: nat, k: nat): nat
  {
    Min(per, Max(0, nlp - k * per))
  }

  /** Node `k` creates one dummy for each of its slots beyond the logical processes it hosts. */
  lemma NodeDummyCount(m: nat, nnodes: nat, k: nat)
    requires nnodes >= 1
    ensures var per := LpsPerPe(LpCount(m), nnodes);
            CountDummies(NodeLayout(m, k, per)) == per - HostedLps(LpCount(m), per, k)
  {
    var per := LpsPerPe(LpCount(m), nnodes);
    var s := NodeLayout(m, k, per);
    var t := Max(0, LpCount(m) - k * per);
    NodeLayoutMatchesGids(m, nnodes, k);
    assert forall i :: 0 <= i < |s| ==> s[i] == GidType(m, k * per + i);
    CountThreshold(s, t);
  }

  /** Real logical processes hosted by nodes `0 .. n - 1`. */
  function TotalHosted(nlp: nat, per: nat, n: nat): nat
  {
    if n == 0 then 0 else TotalHosted(nlp, per, n - 1) + HostedLps(nlp, per, n - 1)
  }

  /** Dummies created by nodes `0 .. n - 1`. */
  function TotalDummies(m: nat, per: nat, n: nat): nat
  {
    if n == 0 then 0 else TotalDummies(m, per, n - 1) + CountDummies(NodeLayout(m, n - 1, per))
  }

  lemma {:induction false} TotalHostedIs(nlp: nat, per: nat, n: nat)
    ensures TotalHosted(nlp, per, n) == Min(n * per, nlp)
  {
    if n > 0 {
      TotalHostedIs(nlp, per, n - 1);
      assert n * per == (n - 1) * per + per;
    }
  }

  lemma {:induction false} TotalDummiesComplement(m: nat, nnodes: nat, n: nat)
    requires nnodes >= 1
    ensures var per := LpsPerPe(LpCount(m), nnodes);
            TotalDummies(m, per, n) + TotalHosted(LpCount(m), per, n) == n * per
  {
    if n > 0 {
      var per := LpsPerPe(LpCount(m), nnodes);
      TotalDummiesComplement(m, nnodes, n - 1);
      NodeDummyCount(m, nnodes, n - 1);
      assert n * per == (n - 1) * per + per;
    }
  }

  /**
   * Over all nodes the distributed layout hosts every one of the `nlp`
   * logical processes and creates `nnodes * nlp_per_pe - nlp` dummies.
   */
  lemma AllNodesTogether(m: nat, nnodes: nat)
    requires nnodes >= 1
    ensures var per := LpsPerPe(LpCount(m), nnodes);
            TotalHosted(LpCount(m), per, nnodes) == LpCount(m)
            && TotalDummies(m, per, nnodes) == nnodes * per - LpCount(m)
  {
    var per := LpsPerPe(LpCount(m), nnodes);
    TotalHostedIs(LpCount(m), per, nnodes);
    TotalDummiesComplement(m, nnodes, nnodes);
  }

  /**
   * The node `mapping` names for a global id is one of the nodes, and the
   * slot there that holds the id has the id's type.
   */
  lemma MappingLocatesGid(m: nat, nnodes: nat, gid: nat)
    requires nnodes >= 1 && gid < LpCount(m)
    ensures var per := LpsPerPe(LpCount(m), nnodes);
            var k := Mapping(gid, per);
            k < nnodes && gid - k * per < per && SlotType(m, k, per, gid - k * per) == GidType(m, gid)
  {
    var per := LpsPerPe(LpCount(m), nnodes);
    var k := Mapping(gid, per);
    if k >= nnodes {
      MulMonotone(nnodes, k, per);
    }
    NodeLayoutMatchesGids(m, nnodes, k);
  }

  /** The sequential branch: slot 0 the master, then each odd slot a link and the slot after it a machine. */
  method SequentialLayout(m: nat) returns (types: seq<LpType>)
    requires m <= MaxMachineAmount
    ensures |types| == LpCount(m)
    ensures forall i :: 0 <= i < |types| ==> types[i] == GidType(m, i)
    ensures forall i :: 0 <= i < |types| ==> types[i] != Dummy && types[i] != Unset
  {
    var nlp := LpCount(m);
    var lps := new LpType[nlp](_ => Unset);
    lps[0] := Master;
    var i := 1;
    while i < nlp
      invariant 1 <= i <= nlp && i % 2 == 1
      invariant forall j :: 0 <= j < i ==> lps[j] == GidType(m, j)
    {
      lps[i] := Link;
      lps[i + 1] := Machine;
      i := i + 2;
    }
    types := lps[..];
  }

  /**
   * The distributed branch on node `myNode` of `nnodes`: `nlp_per_pe`
   * slots, typed slot by slot while `current_gid` advances by one per slot
   * and `dummy_count` counts the dummies. Returns the slots, the dummy
   * count and the final `current_gid`.
   */
  method DistributedLayout(m: nat, nnodes: nat, myNode: nat)
    returns (types: seq<LpType>, dummyCount: nat, currentGid: nat)
    requires m <= MaxMachineAmount
    requires nnodes > 1 && myNode < nnodes
    ensures types == NodeLayout(m, myNode, LpsPerPe(LpCount(m), nnodes))
    ensures forall i :: 0 <= i < |types| ==> types[i] == GidType(m, myNode * |types| + i)
    ensures dummyCount == CountDummies(types)
    ensures currentGid == if myNode == 0 then |types| - 1 else myNode * |types| + |types|
  {
    var per := LpsPerPe(LpCount(m), nnodes);
    if myNode == 0 {
      types, dummyCount, currentGid := NodeZeroSlots(m, per);
    } else {
      types, dummyCount, currentGid := OtherNodeSlots(m, myNode, per);
    }
    NodeLayoutMatchesGids(m, nnodes, myNode);
  }

  /** The loop of node 0: the master in slot 0, then slots 1 .. per - 1 with `current_gid` starting at 0. */
  method NodeZeroSlots(m: nat, per: nat) returns (types: seq<LpType>, dummyCount: nat, currentGid: nat)
    requires per >= 1
    ensures types == NodeLayout(m, 0, per)
    ensures dummyCount == CountDummies(types)
    ensures currentGid == per - 1
  {
    var lps := new LpType[per](_ => Unset);
    currentGid := 0;
    dummyCount := 0;
    lps[0] := Master;
    var i := 1;
    assert lps[..1] == [Master];
    while i < per
      invariant 1 <= i <= per
      invariant currentGid == i - 1
      invariant forall j :: 0 <= j < i ==> lps[j] == SlotType(m, 0, per, j)
      invariant dummyCount == CountDummies(lps[..i])
    {
      if currentGid > HighestMachineId(m) {
        lps[i] := Dummy;
        dummyCount := dummyCount + 1;
      } else if i % 2 == 1 {
        lps[i] := Link;
      } else {
        lps[i] := Machine;
      }
      CountDummiesSnoc(lps[..i], lps[i]);
      assert lps[..i + 1] == lps[..i] + [lps[i]];
      currentGid := currentGid + 1;
      i := i + 1;
    }
    assert lps[..] == lps[..per];
    types := lps[..];
  }

  /** The loop of a node `k > 0`: slots 0 .. per - 1 with `current_gid` starting at `k * per`. */
  method OtherNodeSlots(m: nat, k: nat, per: nat) returns (types: seq<LpType>, dummyCount: nat, currentGid: nat)
    requires k > 0
    ensures types == NodeLayout(m, k, per)
    ensures dummyCount == CountDummies(types)
    ensures currentGid == k * per + per
  {
    var lps := new LpType[per](_ => Unset);
    currentGid := k * per;
    dummyCount := 0;
    var i := 0;
    while i < per
      invariant 0 <= i <= per
      invariant currentGid == k * per + i
      invariant forall j :: 0 <= j < i ==> lps[j] == SlotType(m, k, per, j)
      invariant dummyCount == CountDummies(lps[..i])
    {
      if currentGid > HighestMachineId(m) {
        lps[i] := Dummy;
        dummyCount := dummyCount + 1;
      } else if currentGid % 2 == 1 {
        lps[i] := Link;
      } else {
        lps[i] := Machine;
      }
      CountDummiesSnoc(lps[..i], lps[i]);
      assert lps[..i + 1] == lps[..i] + [lps[i]];
      currentGid := currentGid + 1;
      i := i + 1;
    }
    assert lps[..] == lps[..per];
    types := lps[..];
  }

  /**
   * The branch on `tw_nnodes()`: sequential on a single node, distributed
   * otherwise. In both, every slot gets the type of the global id it holds.
   */
  method LayoutLps(m: nat, nnodes: nat, myNode: nat) returns (types: seq<LpType>, dummyCount: nat)
    requires m <= MaxMachineAmount
    requires nnodes >= 1 && myNode < nnodes
    ensures |types| == LpsPerPe(LpCount(m), nnodes)
    ensures forall i :: 0 <= i < |types| ==> types[i] == GidType(m, myNode * |types| + i)
    ensures dummyCount == CountDummies(types)
  {
    if nnodes > 1 {
      var lastGid;
      types, dummyCount, lastGid := DistributedLayout(m, nnodes, myNode);
    } else {
      types := SequentialLayout(m);
      assert myNode == 0 && LpsPerPe(LpCount(m), nnodes) == LpCount(m);
      CountThreshold(types, |types|);
      dummyCount := 0;
    }
  }

  /** A link registration `registerLink(id, source, destination, ...)`; the link's other parameters are not modelled. */
  datatype LinkRegistration = LinkRegistration(id: nat, source: nat, destination: nat)

  /** The master's slave list and the machine ids: 2, 4, ..., 2 * m. */
  function SlaveIds(m: nat): seq<nat>
  {
    seq(m, j requires 0 <= j < m => 2 * (j + 1))
  }

  /** The links from the master (id 0) to each machine, at the odd id below the machine's. */
  function LinkRegistrations(m: nat): seq<LinkRegistration>
  {
    seq(m, j requires 0 <= j < m => LinkRegistration(2 * j + 1, 0, 2 * j + 2))
  }

  /** The slave list holds `m` ids, ascending, and they are exactly the even ids from 2 to `highest_machine_id`. */
  lemma SlaveIdsShape(m: nat)
    ensures |SlaveIds(m)| == m
    ensures forall a, b :: 0 <= a < b < m ==> SlaveIds(m)[a] < SlaveIds(m)[b]
    ensures forall id :: id in SlaveIds(m) <==> 2 <= id <= HighestMachineId(m) && id % 2 == 0
  {
    forall id | 2 <= id <= HighestMachineId(m) && id % 2 == 0
      ensures id in SlaveIds(m)
    {
      assert SlaveIds(m)[id / 2 - 1] == id;
    }
  }

  /** Every link leaves the master and ends at the machine just above its own id. */
  lemma LinksJoinMasterToMachines(m: nat)
    ensures |LinkRegistrations(m)| == m
    ensures forall j :: 0 <= j < m ==>
              LinkRegistrations(m)[j].source == 0
              && LinkRegistrations(m)[j].destination == LinkRegistrations(m)[j].id + 1
              && LinkRegistrations(m)[j].destination in SlaveIds(m)
  {
    forall j | 0 <= j < m
      ensures LinkRegistrations(m)[j].destination in SlaveIds(m)
    {
      assert SlaveIds(m)[j] == LinkRegistrations(m)[j].destination;
    }
  }

  /** The registered ids and the layout agree: machines sit at the slave ids and links at the link ids. */
  lemma RegistrationMatchesLayout(m: nat, gid: nat)
    requires 1 <= gid <= HighestMachineId(m)
    ensures GidType(m, gid) == Machine <==> gid in SlaveIds(m)
    ensures GidType(m, gid) == Link <==> exists j :: 0 <= j < m && LinkRegistrations(m)[j].id == gid
  {
    SlaveIdsShape(m);
    if gid % 2 == 1 {
      assert LinkRegistrations(m)[gid / 2].id == gid;
    }
  }

  /** The slave-list loop (and the identical machine-registration loop): every even id up to `highest_machine_id`. */
  method CollectMachineIds(m: nat) returns (ids: seq<nat>)
    requires m <= MaxMachineAmount
    ensures ids == SlaveIds(m)
  {
    ids := [];
    var machineId := 2;
    while machineId <= HighestMachineId(m)
      invariant machineId % 2 == 0 && 2 <= machineId <= HighestMachineId(m) + 2
      invariant ids == SlaveIds(machineId / 2 - 1)
    {
      assert SlaveIds(machineId / 2) == SlaveIds(machineId / 2 - 1) + [machineId];
      ids := ids + [machineId];
      machineId := machineId + 2;
    }
  }

  /**
   * The link-registration loop, with the guard `linkId < highest_machine_id`.
   * For one machine or more that is the source's `linkId <= highest_link_id`
   * (LinkGuardAgrees); for none, the source's guard never fails
   * (WrappedLinkGuardNeverFails).
   */
  method CollectLinks(m: nat) returns (links: seq<LinkRegistration>)
    requires m <= MaxMachineAmount
    ensures links == LinkRegistrations(m)
  {
    links := [];
    var linkId := 1;
    while linkId < HighestMachineId(m)
      invariant linkId % 2 == 1 && 1 <= linkId <= HighestMachineId(m) + 1
      invariant links == LinkRegistrations(linkId / 2)
    {
      assert LinkRegistrations(linkId / 2 + 1)
          == LinkRegistrations(linkId / 2) + [LinkRegistration(linkId, 0, linkId + 1)];
      links := links + [LinkRegistration(linkId, 0, linkId + 1)];
      linkId := linkId + 2;
    }
  }

  /** With at least one machine, the source's guard `linkId <= highest_link_id` on odd ids is `linkId < highest_machine_id`, and `linkId += 2` does not wrap while it holds. */
  lemma LinkGuardAgrees(m: u32, linkId: u64)
    requires 1 <= m <= MaxMachineAmount && linkId % 2 == 1
    ensures linkId <= HighestLinkId(m) <==> linkId < HighestMachineId(m)
    ensures linkId <= HighestLinkId(m) ==> Add64(linkId, 2) == linkId + 2
  {
  }

  /**
   * As written, with a machine amount of 0 or 2^31 the 32-bit product
   * `g_star_machine_amount * 2` is 0 and `highest_link_id` wraps to the
   * largest `tw_lpid`: every odd id passes the guard and `linkId += 2`
   * (which wraps from the largest id back to 1) yields another odd id, so
   * the loop starting at 1 never exits.
   */
  lemma WrappedLinkGuardNeverFails(m: u32, linkId: u64)
    requires m == 0 || m == MaxMachineAmount + 1
    requires linkId % 2 == 1
    ensures linkId <= HighestLinkId(m)
    ensures Add64(linkId, 2) % 2 == 1 && Add64(linkId, 2) <= HighestLinkId(m)
  {
  }
}
