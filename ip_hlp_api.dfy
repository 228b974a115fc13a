/**
  * `GetListeningPortsByPid`: the loop over the rows of the IPv4 TCP listener
  * table that groups local ports by owning process. The table arrives as a
  * sequence of rows; the native buffer handling is not modelled.
  */
module PortTable {

  newtype uint32 = x: int | 0 <= x < 0x1_0000_0000

  /** One `MIB_TCPROW_OWNER_PID`, six unsigned 32-bit words as the OS writes them. */
  datatype TcpRow = TcpRow(
    state: uint32,
    localAddr: uint32,
    localPort: uint32,
    remoteAddr: uint32,
    remotePort: uint32,
    owningPid: uint32)

  /** `(int)u`: the same 32 bits read as a signed integer. */
  function ToInt32(u: uint32): (r: int)
    ensures -0x8000_0000 <= r < 0x8000_0000
    ensures (r - u as int) % 0x1_0000_0000 == 0
  {
    if u < 0x8000_0000 then u as int else u as int - 0x1_0000_0000
  }

  /** Exchanges the two bytes of a 16-bit value. */
  function SwapBytes(x: int): (r: int)
    requires 0 <= x < 0x1_0000
    ensures 0 <= r < 0x1_0000
  {
    (x % 0x100) * 0x100 + x / 0x100
  }

  lemma SwapBytesInvolution(x: int)
    requires 0 <= x < 0x1_0000
    ensures SwapBytes(SwapBytes(x)) == x
  {
    var lo, hi := x % 0x100, x / 0x100;
    assert SwapBytes(x) == lo * 0x100 + hi;
    ByteSplit(lo, hi);
  }

  /** A byte-sized high part and low part are recovered by division and remainder. */
  lemma ByteSplit(a: int, b: int)
    requires 0 <= a < 0x100 && 0 <= b < 0x100
    ensures (a * 0x100 + b) / 0x100 == a && (a * 0x100 + b) % 0x100 == b
  {
  }

  /**
    * `IPAddress.NetworkToHostOrder((short)row.dwLocalPort) & 0xFFFF` on a
    * little-endian host: the low 16 bits of the word with their bytes swapped.
    */
  function PortOf(row: TcpRow): (port: int)
    ensures 0 <= port < 0x1_0000
    ensures SwapBytes(port) == row.localPort as int % 0x1_0000
  {
    var low := row.localPort as int % 0x1_0000;
    SwapBytesInvolution(low);
    SwapBytes(low)
  }

  function PidOf(row: TcpRow): int {
    ToInt32(row.owningPid)
  }

  /** The pids that own at least one row. */
  function Pids(rows: seq<TcpRow>): set<int> {
    set i | 0 <= i < |rows| :: PidOf(rows[i])
  }

  /** The ports of the rows owned by `pid`, in table order, duplicates kept. */
  function PortsOwnedBy(rows: seq<TcpRow>, pid: int): seq<int> {
    if rows == [] then []
    else
      var last := rows[|rows| - 1];
      PortsOwnedBy(rows[..|rows| - 1], pid) + (if PidOf(last) == pid then [PortOf(last)] else [])
  }

  /** The grouping as a value: what the loop below builds. */
  function ListeningPorts(tableStatus: int, rows: seq<TcpRow>): map<int, seq<int>> {
    if tableStatus != 0 then map[] else map pid | pid in Pids(rows) :: PortsOwnedBy(rows, pid)
  }

  /**
    * `tableStatus` is what the second `GetExtendedTcpTable` call returned, and
    * `rows` the `dwNumEntries` rows it wrote.
    */
  method GetListeningPortsByPid(tableStatus: int, rows: seq<TcpRow>) returns (result: map<int, seq<int>>)
    ensures tableStatus != 0 ==> result == map[]
    ensures tableStatus == 0 ==> result.Keys == Pids(rows)
    ensures tableStatus == 0 ==> forall pid :: pid in result ==> result[pid] == PortsOwnedBy(rows, pid)
    ensures result == ListeningPorts(tableStatus, rows)
  {
    result := map[];
    if tableStatus != 0 {
      return;
    }
    for i := 0 to |rows|
      invariant result.Keys == Pids(rows[..i])
      invariant forall pid :: pid in result ==> result[pid] == PortsOwnedBy(rows[..i], pid)
    {
      var row := rows[i];
      var pid := PidOf(row);
      var port := PortOf(row);
      var ports := if pid in result then result[pid] else [];
      result := result[pid := ports + [port]];
      assert rows[..i + 1][..i] == rows[..i];
      assert rows[..i + 1][i] == row;
      assert Pids(rows[..i + 1]) == Pids(rows[..i]) + {pid} by {
        forall q | q in Pids(rows[..i + 1]) ensures q in Pids(rows[..i]) + {pid} {
          var j :| 0 <= j < i + 1 && PidOf(rows[..i + 1][j]) == q;
          if j < i { assert rows[..i + 1][j] == rows[..i][j]; }
        }
        forall q | q in Pids(rows[..i]) ensures q in Pids(rows[..i + 1]) {
          var j :| 0 <= j < i && PidOf(rows[..i][j]) == q;
          assert rows[..i + 1][j] == rows[..i][j];
        }
      }
      assert pid !in Pids(rows[..i]) ==> PortsOwnedBy(rows[..i], pid) == [] by {
        if pid !in Pids(rows[..i]) { NoRowsNoPorts(rows[..i], pid); }
      }
    }
    assert rows[..|rows|] == rows;
  }

  lemma {:induction false} NoRowsNoPorts(rows: seq<TcpRow>, pid: int)
    requires pid !in Pids(rows)
    ensures PortsOwnedBy(rows, pid) == []
  {
    if rows != [] {
      var init := rows[..|rows| - 1];
      assert forall j :: 0 <= j < |init| ==> init[j] == rows[j];
      assert PidOf(rows[|rows| - 1]) != pid;
      NoRowsNoPorts(init, pid);
    }
  }

  /** Exactly the owning pids have ports, and none of them an empty list. */
  lemma {:induction false} OwnersHavePorts(rows: seq<TcpRow>, pid: int)
    ensures pid in Pids(rows) <==> |PortsOwnedBy(rows, pid)| > 0
  {
    if rows == [] {
    } else {
      var init := rows[..|rows| - 1];
      var last := rows[|rows| - 1];
      OwnersHavePorts(init, pid);
      assert Pids(rows) == Pids(init) + {PidOf(last)} by {
        forall q | q in Pids(rows) ensures q in Pids(init) + {PidOf(last)} {
          var j :| 0 <= j < |rows| && PidOf(rows[j]) == q;
          if j < |init| { assert rows[j] == init[j]; }
        }
        forall q | q in Pids(init) ensures q in Pids(rows) {
          var j :| 0 <= j < |init| && PidOf(init[j]) == q;
          assert rows[j] == init[j];
        }
      }
    }
  }

  // ---------------------------------------------------------------------------
  // Counting: the lists hold exactly dwNumEntries ports in all

  /** The owning pids, each once, in order of first appearance. */
  function DistinctPids(rows: seq<TcpRow>): (r: seq<int>)
    ensures forall i, j :: 0 <= i < j < |r| ==> r[i] != r[j]
    ensures forall q :: q in r <==> q in Pids(rows)
  {
    if rows == [] then []
    else
      var init := rows[..|rows| - 1];
      var last := rows[|rows| - 1];
      var d := DistinctPids(init);
      assert Pids(rows) == Pids(init) + {PidOf(last)} by {
        forall q | q in Pids(rows) ensures q in Pids(init) + {PidOf(last)} {
          var j :| 0 <= j < |rows| && PidOf(rows[j]) == q;
          if j < |init| { assert rows[j] == init[j]; }
        }
        forall q | q in Pids(init) ensures q in Pids(rows) {
          var j :| 0 <= j < |init| && PidOf(init[j]) == q;
          assert rows[j] == init[j];
        }
      }
      if PidOf(last) in d then d else d + [PidOf(last)]
  }

  /** The total length of the port lists of `pids`. */
  function TotalPorts(rows: seq<TcpRow>, pids: seq<int>): nat {
    if pids == [] then 0 else |PortsOwnedBy(rows, pids[0])| + TotalPorts(rows, pids[1..])
  }

  lemma {:induction false} TotalPortsAppend(rows: seq<TcpRow>, pids: seq<int>, q: int)
    ensures TotalPorts(rows, pids + [q]) == TotalPorts(rows, pids) + |PortsOwnedBy(rows, q)|
  {
    if pids != [] {
      assert (pids + [q])[1..] == pids[1..] + [q];
      TotalPortsAppend(rows, pids[1..], q);
    }
  }

  /** One more row adds one port, to its owner's list, when the owner is among `pids` once. */
  lemma {:induction false} TotalPortsOneMoreRow(rows: seq<TcpRow>, row: TcpRow, pids: seq<int>)
    requires forall i, j :: 0 <= i < j < |pids| ==> pids[i] != pids[j]
    ensures TotalPorts(rows + [row], pids) == TotalPorts(rows, pids) + (if PidOf(row) in pids then 1 else 0)
  {
    if pids != [] {
      var rows' := rows + [row];
      assert rows'[..|rows'| - 1] == rows;
      TotalPortsOneMoreRow(rows, row, pids[1..]);
      assert PidOf(row) in pids <==> PidOf(row) == pids[0] || PidOf(row) in pids[1..];
      assert forall j :: 0 <= j < |pids[1..]| ==> pids[1..][j] == pids[j + 1];
    }
  }

  /** The port lists hold one port per row: their lengths add up to the number of rows. */
  lemma {:induction false} TotalPortsIsRowCount(rows: seq<TcpRow>)
    ensures TotalPorts(rows, DistinctPids(rows)) == |rows|
  {
    if rows != [] {
      var init := rows[..|rows| - 1];
      var last := rows[|rows| - 1];
      var d := DistinctPids(init);
      assert rows == init + [last];
      TotalPortsIsRowCount(init);
      TotalPortsOneMoreRow(init, last, d);
      if PidOf(last) !in d {
        TotalPortsAppend(rows, d, PidOf(last));
        OwnersHavePorts(rows, PidOf(last));
        NoRowsNoPorts(init, PidOf(last));
        assert PortsOwnedBy(rows, PidOf(last)) == [PortOf(last)];
      }
    }
  }
}
