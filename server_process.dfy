/**
  * A discovered server: one (process, listening port) pair, its derived key and
  * its equality, which looks at the process ID and the port only.
  */
module Servers {
  import opened Wrappers
  import opened Text

  /** A point in time, kept opaque (`DateTime`). */
  datatype Instant = Instant(ticks: int)

  datatype ServerProcess = ServerProcess(
    processId: int,
    processName: string,
    port: int,
    executablePath: Option<string>,
    startTime: Option<Instant>,
    commandLine: Option<string>,
    workingDirectory: Option<string>)

  /** The key format shared by live and remembered servers: `{name.ToLowerInvariant()}:{port}`. */
  function MakeKey(name: string, port: int): string {
    Lower(name) + ":" + IntToDecimal(port)
  }

  /** `ServerProcess.ServerKey`. */
  function ServerKey(s: ServerProcess): string {
    MakeKey(s.processName, s.port)
  }

  /**
    * `ServerProcess.Equals(object?)`. `None` stands for a null argument or an
    * object that is not a `ServerProcess`.
    */
  predicate Equals(s: ServerProcess, other: Option<ServerProcess>) {
    match other
    case None => false
    case Some(o) => s.processId == o.processId && s.port == o.port
  }

  /** `Equals` between two records. */
  predicate SameServer(a: ServerProcess, b: ServerProcess) {
    Equals(a, Some(b))
  }

  /**
    * `GetHashCode`: `HashCode.Combine(ProcessId, Port)`. The combiner is seeded
    * per run, so it is a parameter here.
    */
  function HashCode(s: ServerProcess, combine: (int, int) -> int): int {
    combine(s.processId, s.port)
  }

  // ---------------------------------------------------------------------------
  // Equality

  /** Equality holds exactly for records with the same process ID and port, whatever else they hold. */
  lemma EqualsIsPidAndPort(a: ServerProcess, b: ServerProcess, other: Option<ServerProcess>)
    ensures SameServer(a, b) <==> a.processId == b.processId && a.port == b.port
    ensures SameServer(a, b) ==> SameServer(a, b.(processName := a.processName + "x",
      executablePath := None, startTime := None, commandLine := None, workingDirectory := None))
    ensures other.None? ==> !Equals(a, other)
  {
  }

  lemma EqualsIsEquivalence(a: ServerProcess, b: ServerProcess, c: ServerProcess)
    ensures SameServer(a, a)
    ensures SameServer(a, b) ==> SameServer(b, a)
    ensures SameServer(a, b) && SameServer(b, c) ==> SameServer(a, c)
  {
  }

  /** Equal records hash alike, whatever the combiner. */
  lemma HashAgreesWithEquals(a: ServerProcess, b: ServerProcess, combine: (int, int) -> int)
    requires SameServer(a, b)
    ensures HashCode(a, combine) == HashCode(b, combine)
  {
  }

  // ---------------------------------------------------------------------------
  // Keys

  /** In a key, the only colon after the name is the separator. */
  lemma SeparatorIsLastColon(name: string, port: int)
    ensures var k := MakeKey(name, port);
      k[|Lower(name)|] == ':' && forall j :: |Lower(name)| < j < |k| ==> k[j] != ':'
  {
    var d := IntToDecimal(port);
    var k := MakeKey(name, port);
    forall j | |Lower(name)| < j < |k| ensures k[j] != ':' {
      assert k[j] == d[j - |Lower(name)| - 1];
    }
  }

  /**
    * Two keys are equal exactly when the names are equal up to letter case and
    * the ports are equal: the key loses nothing but the case of the name.
    */
  lemma KeyIdentifiesFoldedNameAndPort(n1: string, p1: int, n2: string, p2: int)
    ensures MakeKey(n1, p1) == MakeKey(n2, p2) <==> EqualsIgnoreCase(n1, n2) && p1 == p2
  {
    var k1, k2 := MakeKey(n1, p1), MakeKey(n2, p2);
    if k1 == k2 {
      SeparatorIsLastColon(n1, p1);
      SeparatorIsLastColon(n2, p2);
      assert |Lower(n1)| == |Lower(n2)|;
      assert Lower(n1) == k1[..|Lower(n1)|];
      assert Lower(n2) == k2[..|Lower(n2)|];
      assert IntToDecimal(p1) == k1[|Lower(n1)| + 1..];
      assert IntToDecimal(p2) == k2[|Lower(n2)| + 1..];
      DecimalInjective(p1, p2);
    }
  }

  /**
    * A key is already case-folded, so comparing keys ignoring case is
    * comparing them exactly.
    */
  lemma KeyIsFolded(n1: string, p1: int, n2: string, p2: int)
    ensures Lower(MakeKey(n1, p1)) == MakeKey(n1, p1)
    ensures EqualsIgnoreCase(MakeKey(n1, p1), MakeKey(n2, p2)) <==> MakeKey(n1, p1) == MakeKey(n2, p2)
  {
    forall n: string, p: int ensures Lower(MakeKey(n, p)) == MakeKey(n, p) {
      LowerConcat(Lower(n) + ":", IntToDecimal(p));
      LowerConcat(Lower(n), ":");
      LowerIdempotent(n);
      LowerOfFolded(":");
      LowerOfFolded(IntToDecimal(p));
    }
  }

  /** Records that differ only in the letter case of their names share a key. */
  lemma KeyIgnoresNameCase(a: ServerProcess, b: ServerProcess)
    requires EqualsIgnoreCase(a.processName, b.processName) && a.port == b.port
    ensures ServerKey(a) == ServerKey(b)
  {
  }

  /**
    * Key identity and `Equals` are different relations: a server restarted under
    * a new process ID keeps its key but is not equal to its former record.
    */
  lemma RestartKeepsKeyButNotEquality(a: ServerProcess, newPid: int)
    requires newPid != a.processId
    ensures ServerKey(a.(processId := newPid)) == ServerKey(a)
    ensures !SameServer(a.(processId := newPid), a)
  {
  }
}
