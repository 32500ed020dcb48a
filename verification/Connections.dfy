/**
 The dispatcher's connectors: which kind of worker a connector's name stands for, and that a message
 is published where a worker of its destination's kind listens.
 */
module Connections {
  import opened Wrappers
  import opened Connectors
  import opened RoutingTables
  import opened Messages
  import opened Passes
  import opened Workers
  import opened Journeys

  /** The configuration gives the name to a connector of the kind. */
  ghost predicate Named(cfg: Config, k: Kind, name: string) {
    match k
    case BillingKind => cfg.billingInbound == Some(name) || cfg.billingOutbound == Some(name)
    case ConversationKind => exists t :: t in cfg.applications && cfg.applications[t] == name
    case RouterKind =>
      || (exists t :: t in cfg.routersInbound && cfg.routersInbound[t] == name)
      || (exists t :: t in cfg.routersOutbound && cfg.routersOutbound[t] == name)
    case TagKind => name in cfg.receiveInbound
    case OptOutKind => name == cfg.optOutConnector
  }

  /** The order in which the kinds are tried. */
  function Turn(k: Kind): nat {
    match k
    case BillingKind => 0
    case ConversationKind => 1
    case RouterKind => 2
    case TagKind => 3
    case OptOutKind => 4
  }

  lemma FirstIsNamed(cfg: Config, name: string, first: Kind)
    requires cfg.Kinds(name) == Success(first)
    ensures Named(cfg, first, name)
    ensures forall j :: Turn(j) < Turn(first) ==> !Named(cfg, j, name)
  {
    NamedInMaps(cfg, name);
    forall j | Turn(j) < Turn(first) ensures !Named(cfg, j, name) {
      match j {
        case BillingKind =>
        case ConversationKind =>
        case RouterKind =>
        case TagKind =>
        case OptOutKind =>
      }
    }
  }

  lemma NamedInMaps(cfg: Config, name: string)
    ensures name in cfg.applications.Values <==> Named(cfg, ConversationKind, name)
    ensures name in cfg.routersInbound.Values || name in cfg.routersOutbound.Values <==> Named(cfg, RouterKind, name)
  {
  }

  /** A name stands for the first kind that it is given to, and for none only if it is given to none. */
  lemma KindsAreNamed(cfg: Config, name: string, k: Kind)
    ensures cfg.Kinds(name) == Success(k) <==> Named(cfg, k, name) && forall j :: Turn(j) < Turn(k) ==> !Named(cfg, j, name)
    ensures cfg.Kinds(name).Failure? <==> forall j :: !Named(cfg, j, name)
  {
    match cfg.Kinds(name) {
      case Success(first) =>
        FirstIsNamed(cfg, name, first);
        assert Turn(first) == Turn(k) ==> first == k;
      case Failure(_) =>
        NamedInMaps(cfg, name);
        forall j ensures !Named(cfg, j, name) {
          match j {
            case BillingKind =>
            case ConversationKind =>
            case RouterKind =>
            case TagKind =>
            case OptOutKind =>
          }
        }
    }
  }

  /** Messages leave for good on the connectors given to transports, unless they are given to routers or billing too. */
  lemma TransportsAreNamed(cfg: Config, name: string)
    ensures cfg.IsTransport(name) <==> Named(cfg, TagKind, name) && !Named(cfg, RouterKind, name) && !Named(cfg, BillingKind, name)
  {
    NamedInMaps(cfg, name);
  }

  /** No name is given to connectors of two kinds. */
  ghost predicate Separate(cfg: Config) {
    forall name, j, k :: Named(cfg, j, name) && Named(cfg, k, name) ==> j == k
  }

  /** Where names are separate, what is published for a destination arrives on a connector of the destination's kind. */
  lemma ArrivesOnItsKind(cfg: Config, d: Direction, target: Connector, name: string)
    requires Separate(cfg) && NamedFor(cfg, d, target, Some(name))
    ensures cfg.Kinds(name) == Success(KindOf(target))
  {
    if !target.TransportTag? {
      assert Named(cfg, KindOf(target), name);
      KindsAreNamed(cfg, name, KindOf(target));
    }
  }

  /**
   A published message arrives at a worker of the kind it was sent to, and the worker that hands it back does so
   as that kind.
   */
  lemma PassArrivesOnItsKind(w: World, d: Direction, m: Msg, k: Kind, h: Handoff)
    requires Separate(w.cfg) && Routable(w.table) && Ready(d, m, k)
    ensures match Process(w, d, m, k)
            case Published(sent, Some(name), _) =>
              && At(sent).Some?
              && w.cfg.Kinds(name) == Success(KindOf(At(sent).value.conn))
              && (HandedBack(d, sent, h).Some? ==> w.cfg.Kinds(name) == Success(HandedBack(d, sent, h).value.1))
            case _ => true
  {
    PassKeepsPath(w, d, m, k);
    var out := Process(w, d, m, k);
    if out.Published? && out.connector.Some? {
      ArrivesOnItsKind(w.cfg, d, At(out.m).value.conn, out.connector.value);
    }
  }

  /** A message goes to billing only where billing's connector has a name that is not empty. */
  lemma BillingHasAName(w: World, d: Direction, m: Msg, k: Kind)
    requires Routable(w.table) && Ready(d, m, k)
    ensures var out := Process(w, d, m, k);
            out.Published? && At(out.m).Some? && At(out.m).value.conn.Billing? ==>
              out.connector.Some? && out.connector.value != ""
  {
    PassKeepsPath(w, d, m, k);
    if Process(w, d, m, k).Published? {
      PassAddsHop(w, d, m, k);
      RoutedFacesAway(w, SourceConnector(m, k, d).value, m.endpoint);
      if m.tag.Some? {
        RoutedFacesAway(w, TransportTag(m.tag.value.0, m.tag.value.1), m.endpoint);
      }
    }
  }
}
