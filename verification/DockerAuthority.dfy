// The local socket as declared authority: what a request asks for, and whether a container's
// binds and groups are exactly that, with one fixed compatibility case.

module DockerAuthority {
  import opened Wrappers
  import opened DockerLabels
  import opened DockerDaemon

  datatype Delivery = Delivery(mounts: seq<Bind>, groups: seq<string>)

  const CANONICAL := [Bind(Socket, Socket, false)]
  const DESKTOP_OBSERVED := [Bind(DesktopProxy, Socket, false)]

  function Material(deliveries: seq<AuthorityDelivery>, localSocket: bool, group: Option<string>)
    : (r: Result<Delivery, Raised>)
    ensures r.Failure? ==> r.error == UnsupportedAuthority || r.error == Precondition
  {
    if deliveries == [] then Success(Delivery([], []))
    else
      var n := |deliveries| - 1;
      match Material(deliveries[..n], localSocket, group)
      case Failure(e) => Failure(e)
      case Success(m) =>
        if deliveries[n].OtherDelivery? || !localSocket then Failure(UnsupportedAuthority)
        else if group.None? then Failure(Precondition)
        else Success(Delivery(m.mounts + CANONICAL, m.groups + [group.value]))
  }

  predicate AllLocal(deliveries: seq<AuthorityDelivery>) {
    forall i | 0 <= i < |deliveries| :: deliveries[i].LocalSocketMount?
  }

  /** There is a delivery exactly if all of them are of the local socket and the interpreter has
      one with a group. A socket whose group is not known is a broken precondition if it comes
      first; everything else is unsupported. */
  lemma {:induction false} MaterialMeans(deliveries: seq<AuthorityDelivery>, localSocket: bool, group: Option<string>)
    ensures Material(deliveries, localSocket, group).Success? <==>
              AllLocal(deliveries) && (deliveries != [] ==> localSocket && group.Some?)
    ensures Material(deliveries, localSocket, group) == Failure(Precondition) <==>
              deliveries != [] && deliveries[0].LocalSocketMount? && localSocket && group.None?
  {
    if deliveries != [] {
      var less := deliveries[..|deliveries| - 1];
      MaterialMeans(less, localSocket, group);
      assert AllLocal(deliveries) <==> AllLocal(less) && deliveries[|less|].LocalSocketMount?;
    }
  }

  /** Each delivery is one socket mount and one mention of its group. */
  lemma {:induction false} MaterialContents(deliveries: seq<AuthorityDelivery>, localSocket: bool,
                                            group: Option<string>, i: nat)
    requires Material(deliveries, localSocket, group).Success? && i < |deliveries|
    ensures var m := Material(deliveries, localSocket, group).value;
            && |m.mounts| == |m.groups| == |deliveries|
            && m.mounts[i] == Bind(Socket, Socket, false) && Some(m.groups[i]) == group
  {
    var less := deliveries[..|deliveries| - 1];
    if less != [] {
      MaterialContents(less, localSocket, group, if i < |less| then i else 0);
    }
  }

  lemma {:induction false} MaterialPrefix(deliveries: seq<AuthorityDelivery>, n: nat, localSocket: bool,
                                          group: Option<string>)
    requires n <= |deliveries| && Material(deliveries[..n], localSocket, group).Failure?
    ensures Material(deliveries, localSocket, group) == Material(deliveries[..n], localSocket, group)
    decreases |deliveries|
  {
    if n < |deliveries| {
      var less := deliveries[..|deliveries| - 1];
      assert less[..n] == deliveries[..n];
      MaterialPrefix(less, n, localSocket, group);
    } else {
      assert deliveries[..n] == deliveries;
    }
  }

  function Declared(d: Daemon, q: Install): Result<Delivery, Raised> {
    Material(q.deliveries, d.localSocket, d.socketGroup)
  }

  method DeclaredDelivery(d: Daemon, q: Install) returns (r: Result<Delivery, Raised>)
    ensures r == Declared(d, q)
  {
    var mounts, groups := [], [];
    for i := 0 to |q.deliveries|
      invariant Material(q.deliveries[..i], d.localSocket, d.socketGroup) == Success(Delivery(mounts, groups))
    {
      assert q.deliveries[..i + 1][..i] == q.deliveries[..i];
      if q.deliveries[i].OtherDelivery? || !d.localSocket {
        MaterialPrefix(q.deliveries, i + 1, d.localSocket, d.socketGroup);
        return Failure(UnsupportedAuthority);
      }
      if d.socketGroup.None? {
        MaterialPrefix(q.deliveries, i + 1, d.localSocket, d.socketGroup);
        return Failure(Precondition);
      }
      mounts, groups := mounts + CANONICAL, groups + [d.socketGroup.value];
    }
    assert q.deliveries[..|q.deliveries|] == q.deliveries;
    r := Success(Delivery(mounts, groups));
  }

  datatype Conformance = Conformant | Conflict | Unknown

  /** What decides without asking the provider for its facts; None where they are needed. */
  function Decided(c: Container, e: Delivery, localSocket: bool): Option<Conformance> {
    if c.binds.None? || c.groups.None? then Some(Unknown)
    else if c.binds.value == e.mounts && c.groups.value == e.groups then Some(Conformant)
    else if c.groups.value != e.groups || e.mounts != CANONICAL || c.binds.value != DESKTOP_OBSERVED then
      Some(Conflict)
    else if c.configuredBinds.None? then Some(Unknown)
    else if |c.configuredBinds.value| != 1 then Some(Conflict)
    else
      var bind := c.configuredBinds.value[0];
      if bind.source != DesktopProxy || bind.target != Socket || bind.readOnly == Some(true) then Some(Conflict)
      else if !localSocket then Some(Conflict)
      else None
  }

  function ConformanceOf(c: Container, e: Delivery, localSocket: bool, facts: Option<ProviderFacts>): Conformance {
    match Decided(c, e, localSocket)
    case Some(decision) => decision
    case None =>
      if facts.None? then Unknown
      else if facts.value == QualifiedDesktop then Conformant
      else Conflict
  }

  /** Exactly the declared mounts and groups, or the one compatibility case: the single canonical
      socket mount, shown as a mount of the desktop's proxy of it, configured as one writable bind,
      on the qualified desktop. */
  lemma ConformantMeans(c: Container, e: Delivery, localSocket: bool, facts: Option<ProviderFacts>)
    ensures ConformanceOf(c, e, localSocket, facts) == Conformant <==>
              && c.binds.Some? && c.groups == Some(e.groups)
              && (|| c.binds == Some(e.mounts)
                  || (&& e.mounts == [Bind(Socket, Socket, false)]
                      && c.binds == Some([Bind(DesktopProxy, Socket, false)])
                      && c.configuredBinds.Some? && |c.configuredBinds.value| == 1
                      && c.configuredBinds.value[0].source == DesktopProxy
                      && c.configuredBinds.value[0].target == Socket
                      && c.configuredBinds.value[0].readOnly != Some(true)
                      && localSocket && facts == Some(QualifiedDesktop)))
  {
  }

  /** Unknown: the mounts or groups were not reported, or in that one case something else that
      decides it was not. */
  lemma UnknownMeans(c: Container, e: Delivery, localSocket: bool, facts: Option<ProviderFacts>)
    ensures ConformanceOf(c, e, localSocket, facts) == Unknown <==>
              || c.binds.None? || c.groups.None?
              || (&& c.groups == Some(e.groups) && e.mounts == [Bind(Socket, Socket, false)]
                  && c.binds == Some([Bind(DesktopProxy, Socket, false)])
                  && (|| c.configuredBinds.None?
                      || (&& |c.configuredBinds.value| == 1
                          && c.configuredBinds.value[0].source == DesktopProxy
                          && c.configuredBinds.value[0].target == Socket
                          && c.configuredBinds.value[0].readOnly != Some(true)
                          && localSocket && facts.None?)))
  {
  }

  method Conforms(d: Daemon, c: Container, e: Delivery) returns (r: Conformance)
    ensures r == ConformanceOf(c, e, d.localSocket, d.facts) || r == Unknown
    ensures d.reliable ==> r == ConformanceOf(c, e, d.localSocket, d.facts)
  {
    var decision := Decided(c, e, d.localSocket);
    if decision.Some? {
      return decision.value;
    }
    var facts := d.InspectFacts();
    r := ConformanceOf(c, e, d.localSocket, facts);
  }

  predicate ConformsExactly(d: Daemon, q: Install, c: Container) {
    Declared(d, q).Success? && ConformanceOf(c, Declared(d, q).value, d.localSocket, d.facts) == Conformant
  }

  /** Before anything is changed a conflict is an unsupported authority; afterwards it is a
      broken precondition. */
  method RequireAuthority(d: Daemon, c: Container, e: Delivery, final: bool) returns (r: Result<(), Raised>)
    ensures r.Success? ==> ConformanceOf(c, e, d.localSocket, d.facts) == Conformant
    ensures r.Failure? ==> r.error == Other || r.error == if final then Precondition else UnsupportedAuthority
    ensures d.reliable && ConformanceOf(c, e, d.localSocket, d.facts) == Conformant ==> r.Success?
  {
    var conformance := Conforms(d, c, e);
    r := match conformance
         case Conformant => Success(())
         case Unknown => Failure(Other)
         case Conflict => Failure(if final then Precondition else UnsupportedAuthority);
  }
}
