/** The VDA5050 3.0.0 entities an AGV exchanges with fleet control: the message
    shapes and enumerations, reduced to the fields the state machine reads. */
module Vda5050 {

  datatype Option<+T> = None | Some(value: T)

  /** A time span, as passed to a tick. */
  type Span = t: real | 0.0 < t witness 1.0

  datatype Status = Waiting | Initializing | Running | Paused | Retriable | Finished | Failed {
    predicate Terminal() { Finished? || Failed? }

    /** The statuses `is_idle` counts as busy. */
    predicate Busy() { Waiting? || Initializing? || Running? || Paused? }

    /** The non-terminal statuses that count when movement is to be held; PAUSED is not among them. */
    predicate Holds() { Waiting? || Initializing? || Running? || Retriable? }
  }

  datatype Blocking = NoBlocking | Soft | Single | Hard {
    predicate HoldsMovement() { !NoBlocking? }
  }

  datatype Scope = InstantScope | NodeScope | EdgeScope | ZoneScope

  /** The predefined action types of section 6.2.3 of VDA5050 3.0.0, and any
      manufacturer's own. */
  datatype ActionKind =
    | StartPause | StopPause | StartHibernation | StopHibernation | Shutdown
    | StartCharging | StopCharging | InitializePosition
    | EnableMap | DownloadMap | DeleteMap
    | DownloadZoneSet | EnableZoneSet | DeleteZoneSet
    | ClearInstantActions | ClearZoneActions | StateRequest | LogReport
    | Pick | Drop | DetectObject | FinePositioning
    | WaitForTrigger | Trigger | Retry | SkipRetry
    | CancelOrder | FactsheetRequest | UpdateCertificate
    | Custom(name: string)

  /** One action parameter. `text` is the value rendered as a string, `number`
      its numeric reading when it has one, `truthy` whether it counts as set. */
  datatype Param = Param(key: string, text: string, number: Option<real>, truthy: bool)

  datatype Action = Action(
    id: string, kind: ActionKind, blocking: Blocking, params: seq<Param>, retriable: bool)

  /** The parameter stored under `key`; a repeated key keeps its last value. */
  function Lookup(params: seq<Param>, key: string): Option<Param> {
    if params == [] then None
    else if params[|params| - 1].key == key then Some(params[|params| - 1])
    else Lookup(params[..|params| - 1], key)
  }

  /** The parameter as text, the empty string when it is absent. */
  function Text(a: Action, key: string): string {
    match Lookup(a.params, key)
    case Some(p) => p.text
    case None => ""
  }

  function OptionalText(a: Action, key: string): Option<string> {
    match Lookup(a.params, key)
    case Some(p) => Some(p.text)
    case None => None
  }

  datatype Position = Position(x: real, y: real, mapId: string, theta: Option<real>)

  datatype Node = Node(
    nodeId: string, seqId: int, released: bool, position: Option<Position>, actions: seq<Action>)

  datatype OrientationType = Global | Tangential

  datatype Edge = Edge(
    edgeId: string, seqId: int, released: bool, maximumSpeed: Option<real>,
    orientation: Option<real>, orientationType: Option<OrientationType>,
    reachOrientationFirst: bool, releaseRequired: bool, actions: seq<Action>)

  /** An order message. Two orders have equal content exactly when they are equal values. */
  datatype Order = Order(orderId: string, updateId: int, nodes: seq<Node>, edges: seq<Edge>)

  datatype Entry = Entry(id: string, kind: ActionKind, status: Status)

  datatype Load = Load(loadId: Option<string>, loadType: Option<string>, position: Option<string>)

  datatype Vertex = Vertex(x: real, y: real)

  datatype ZoneType =
    | Blocked | LineGuided | Release | CoordinatedReplanning | SpeedLimit
    | ActionZone | Priority | Penalty | Directed | Bidirected

  datatype Limitation = SoftLimit | Restricted | Strict

  datatype Zone = Zone(
    zoneId: string, zoneType: ZoneType, vertices: seq<Vertex>, maximumSpeed: Option<real>,
    entryActions: seq<Action>, duringActions: seq<Action>, exitActions: seq<Action>,
    direction: Option<real>, limitation: Option<Limitation>)

  datatype ZoneSet = ZoneSet(mapId: string, zoneSetId: string, zones: seq<Zone>)

  datatype RequestStatus = Requested | Granted | Revoked | Expired

  datatype GrantType = GrantGranted | GrantQueued | GrantRevoked | GrantRejected

  datatype ZoneRequestType = Access | Replanning

  datatype ZoneRequest = ZoneRequest(
    requestId: string, requestType: ZoneRequestType, zoneId: string, zoneSetId: string, status: RequestStatus)

  datatype EdgeRequest = EdgeRequest(requestId: string, edgeId: string, seqId: int, status: RequestStatus)

  datatype Response = Response(requestId: string, grant: GrantType, leaseExpiry: Option<string>)

  datatype OperatingMode = Startup | Automatic | Semiautomatic | Intervened | Manual | Service | TeachIn

  datatype EmergencyStop = NoStop | ManualStop | RemoteStop

  datatype ErrorKind =
    | OtherOrderActive | OutdatedOrderUpdate | SameOrderUpdateId | NoOrderToCancel | ValidationError
    | HardwareFault | UnknownMapId(mapId: string) | DuplicateMap | DuplicateZoneSet | InvalidInstantAction
}
