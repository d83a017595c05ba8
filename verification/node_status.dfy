/**
 * pkg/maas/node.go (NodeStatus) and pkg/maas/entity/node/status.go (Status): the MAAS
 * node status codes. Both files declare the same table with iota, so a status's code is
 * its position in the declaration; the Default alias is declared as 0, the code of New.
 */
module NodeStatus {
  import opened Wrappers

  datatype Status =
    | New | Commissioning | FailedCommissioning | Missing | Ready | Reserved | Deployed
    | Retired | Broken | Deploying | Allocated | FailedDeployment | Releasing
    | FailedReleasing | DiskErasing | FailedDiskErasing | RescueMode | EnteringRescueMode
    | FailedEnteringRescueMode | ExitingRescueMode | FailedExitingRescueMode | Testing
    | FailedTesting

  /** The statuses in declaration order. */
  const Declared: seq<Status> := [
    New, Commissioning, FailedCommissioning, Missing, Ready, Reserved, Deployed,
    Retired, Broken, Deploying, Allocated, FailedDeployment, Releasing,
    FailedReleasing, DiskErasing, FailedDiskErasing, RescueMode, EnteringRescueMode,
    FailedEnteringRescueMode, ExitingRescueMode, FailedExitingRescueMode, Testing,
    FailedTesting]

  /** Every status is declared. */
  lemma AllDeclared(s: Status)
    ensures s in Declared
  {
  }

  /** No status is declared twice. */
  lemma DeclaredOnce()
    ensures forall i, j :: 0 <= i < j < |Declared| ==> Declared[i] != Declared[j]
  {
  }

  /** iota: a status's code is its position in the declaration. */
  function Code(s: Status): (c: nat)
    ensures c < |Declared| && Declared[c] == s
  {
    match s
    case New => 0
    case Commissioning => 1
    case FailedCommissioning => 2
    case Missing => 3
    case Ready => 4
    case Reserved => 5
    case Deployed => 6
    case Retired => 7
    case Broken => 8
    case Deploying => 9
    case Allocated => 10
    case FailedDeployment => 11
    case Releasing => 12
    case FailedReleasing => 13
    case DiskErasing => 14
    case FailedDiskErasing => 15
    case RescueMode => 16
    case EnteringRescueMode => 17
    case FailedEnteringRescueMode => 18
    case ExitingRescueMode => 19
    case FailedExitingRescueMode => 20
    case Testing => 21
    case FailedTesting => 22
  }

  /** NodeStatusDefault / StatusDefault, declared as 0. */
  const Default: Status := Declared[0]

  /** The status with a given code; None for a code outside the table. */
  function FromCode(n: int): (r: Option<Status>)
    ensures r.Some? <==> 0 <= n < |Declared|
  {
    if 0 <= n < |Declared| then Some(Declared[n]) else None
  }

  /** The status declared at position i has code i. */
  lemma CodeAt(i: nat)
    requires i < |Declared|
    ensures Code(Declared[i]) == i
  {
    DeclaredOnce();
  }

  /** Codes run from 0 (New) up by one in declaration order, ending at 22 (FailedTesting). */
  lemma CodesSequential()
    ensures |Declared| == 23 && Code(New) == 0 && Code(FailedTesting) == 22
    ensures forall i :: 0 <= i < |Declared| - 1 ==> Code(Declared[i + 1]) == Code(Declared[i]) + 1
  {
    CodeAt(0);
    CodeAt(22);
    forall i | 0 <= i < |Declared| - 1
      ensures Code(Declared[i + 1]) == Code(Declared[i]) + 1
    {
      CodeAt(i);
      CodeAt(i + 1);
    }
  }

  /** The code identifies the status: reading a status's code back gives the status, and conversely. */
  lemma CodeRoundTrip(s: Status, n: int)
    ensures FromCode(Code(s)) == Some(s)
    ensures FromCode(n) == Some(s) ==> Code(s) == n
  {
    DeclaredOnce();
  }

  /** The Default alias is New, with code 0. */
  lemma DefaultIsNew()
    ensures Default == New && Code(Default) == 0
  {
    CodeAt(0);
  }

  /** The codes the status tests check. */
  lemma TestedCodes(s: Status)
    ensures s == New || s == Default ==> Code(s) == 0
    ensures s == Commissioning ==> Code(s) == 1
    ensures s == Ready ==> Code(s) == 4
    ensures s == Deployed ==> Code(s) == 6
    ensures s == Deploying ==> Code(s) == 9
    ensures s == Allocated ==> Code(s) == 10
  {
    if s == New || s == Default {
      CodeAt(0);
    } else if s == Commissioning {
      CodeAt(1);
    } else if s == Ready {
      CodeAt(4);
    } else if s == Deployed {
      CodeAt(6);
    } else if s == Deploying {
      CodeAt(9);
    } else if s == Allocated {
      CodeAt(10);
    }
  }
}
