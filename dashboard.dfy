/** The component state of DashboardIoT.js and the event handlers that update
    it: the socket's open, close, error and message handlers, the connect
    button, the actuator controls, the command sender and the poll. */
module Dashboard {
  import opened Wrappers
  import opened Config
  import opened History
  import opened Actuators

  /** A WebSocket object, known by its identity and the URL it was opened
      with. The transport behind it is not modelled. */
  class WebSocket {
    const url: string

    constructor (url: string)
      ensures this.url == url
    {
      this.url := url;
    }
  }

  /** A call the dashboard makes on a socket. */
  datatype TransportCall = Send(socket: WebSocket, frame: Frame) | Close(socket: WebSocket)

  /** The sensor state of the first render. */
  const INITIAL_SENSORES := Reading(0, 0, 0, false, 0)

  class Dashboard {
    var sensores: Reading
    var actuadores: Actuators
    var historicos: seq<Entry>
    var conectado: bool
    var ws: WebSocket?
    /** Every send and close the dashboard has issued, in order. */
    var transport: seq<TransportCall>
    /** Every socket constructed so far, oldest first. */
    ghost var created: seq<WebSocket>
    /** Every history entry built from a decoded message, oldest first. */
    ghost var ingested: seq<Entry>

    /** The history is what the updater made of every decoded entry. */
    ghost predicate HistoryValid()
      reads this`historicos, this`ingested
    {
      historicos == Replay(ingested)
    }

    ghost predicate Valid()
      reads this
    {
      && HistoryValid()
      && (ws == null <==> created == [])
      && (ws != null ==> ws == created[|created| - 1])
      && (conectado ==> created != [])
      && forall i :: 0 <= i < |transport| ==> transport[i].socket in created
    }

    /** The history is bounded by MAX_HISTORICAL + 1, has no equal
        neighbours, and holds the newest entries of the decoded stream. */
    lemma HistoryInvariant()
      requires Valid()
      ensures |historicos| <= MAX_HISTORICAL + 1
      ensures AdjacentDistinct(historicos)
      ensures historicos == Newest(Collapse(ingested), MAX_HISTORICAL + 1)
    {
      ReplayBounded(ingested);
      ReplayAdjacentDistinct(ingested);
      ReplayIsNewestOfCollapse(ingested);
    }

    constructor ()
      ensures Valid()
      ensures sensores == INITIAL_SENSORES && actuadores == INITIAL_ACTUADORES
      ensures historicos == [] && !conectado && ws == null && transport == []
    {
      sensores := INITIAL_SENSORES;
      actuadores := INITIAL_ACTUADORES;
      historicos := [];
      conectado := false;
      ws := null;
      transport := [];
      created := [];
      ingested := [];
    }

    /** The poll interval exists exactly while this holds. */
    predicate PollActive()
      reads this
    {
      conectado && ws != null
    }

    /** enviarComando: dropped without a socket; otherwise `{tipo, valor}` is
        handed to the socket as given. Only null is checked, not whether the
        socket is open. */
    method EnviarComando(tipo: string, valor: Value)
      requires Valid()
      modifies this`transport
      ensures Valid()
      ensures ws == null ==> transport == old(transport)
      ensures ws != null ==> transport == old(transport) + [Send(ws, Command(tipo, valor))]
    {
      if ws != null {
        transport := transport + [Send(ws, Command(tipo, valor))];
      }
    }

    /** conectarWebSocket. `constructs` says whether `new WebSocket(url)`
        returns (true) or throws (false). On success the new socket becomes
        `ws` and `conectado` waits for the open event; on failure `conectado`
        is cleared and `ws` is kept. */
    method ConectarWebSocket(constructs: bool)
      requires Valid()
      modifies this`ws, this`conectado, this`created
      ensures Valid()
      ensures constructs ==> fresh(ws) && ws.url == CONFIG.WebSocketUrl()
                             && created == old(created) + [ws] && conectado == old(conectado)
      ensures !constructs ==> ws == old(ws) && created == old(created) && !conectado
    {
      if constructs {
        var s := new WebSocket(CONFIG.WebSocketUrl());
        ws := s;
        created := created + [s];
      } else {
        conectado := false;
      }
    }

    /** onopen of any socket this dashboard constructed. */
    method OnOpen(s: WebSocket)
      requires Valid() && s in created
      modifies this`conectado
      ensures Valid() && conectado
    {
      conectado := true;
    }

    /** onclose of any socket this dashboard constructed; `ws` is kept. */
    method OnClose(s: WebSocket)
      requires Valid() && s in created
      modifies this`conectado
      ensures Valid() && !conectado
    {
      conectado := false;
    }

    /** onerror of any socket this dashboard constructed; `ws` is kept. */
    method OnError(s: WebSocket)
      requires Valid() && s in created
      modifies this`conectado
      ensures Valid() && !conectado
    {
      conectado := false;
    }

    /** onmessage, once its debounce timer fires. `decode` stands for
        JSON.parse, None where it throws; `now` is the time of day. A decoded
        reading replaces `sensores` as a whole and goes to the history with
        its timestamp; a failed decode changes nothing. */
    method OnMessage(s: WebSocket, data: string, decode: string -> Option<Reading>, now: Timestamp)
      requires Valid() && s in created
      modifies this`sensores, this`historicos, this`ingested
      ensures Valid()
      ensures decode(data).None? ==> sensores == old(sensores) && historicos == old(historicos)
      ensures decode(data).Some? ==>
                sensores == decode(data).value
                && historicos == UpdateHistory(old(historicos), Entry(decode(data).value, now))
      ensures ingested == if decode(data).Some? then old(ingested) + [Entry(decode(data).value, now)]
                          else old(ingested)
    {
      var parsed := decode(data);
      if parsed.Some? {
        var entry := Entry(parsed.value, now);
        ReplayStep(ingested, entry);
        sensores := parsed.value;
        historicos := UpdateHistory(historicos, entry);
        ingested := ingested + [entry];
      }
    }

    /** toggleConexion: close the socket when connected, connect otherwise.
        Closing only asks the socket to close; `conectado` changes when its
        close event arrives. */
    method ToggleConexion(constructs: bool)
      requires Valid()
      modifies this`ws, this`conectado, this`created, this`transport
      ensures Valid()
      ensures old(conectado) ==>
                old(ws) != null && transport == old(transport) + [Close(old(ws))]
                && ws == old(ws) && conectado && created == old(created)
      ensures !old(conectado) ==> transport == old(transport)
      ensures !old(conectado) && constructs ==>
                fresh(ws) && ws.url == CONFIG.WebSocketUrl() && created == old(created) + [ws] && !conectado
      ensures !old(conectado) && !constructs ==> ws == old(ws) && created == old(created) && !conectado
    {
      if conectado {
        if ws != null {
          transport := transport + [Close(ws)];
        }
      } else {
        ConectarWebSocket(constructs);
      }
    }

    /** controlarMotorPaso: set the stepper angle and send it. */
    method ControlarMotorPaso(grados: int)
      requires Valid()
      modifies this`actuadores, this`transport
      ensures Valid()
      ensures actuadores == SetMotorPaso(old(actuadores), grados)
      ensures transport == if ws == null then old(transport)
                           else old(transport) + [Send(ws, Command("motorPaso", Number(grados)))]
    {
      actuadores := SetMotorPaso(actuadores, grados);
      EnviarComando("motorPaso", Number(grados));
    }

    /** controlarServomotor: set the servo angle and send it. */
    method ControlarServomotor(angulo: int)
      requires Valid()
      modifies this`actuadores, this`transport
      ensures Valid()
      ensures actuadores == SetServomotor(old(actuadores), angulo)
      ensures transport == if ws == null then old(transport)
                           else old(transport) + [Send(ws, Command("servomotor", Number(angulo)))]
    {
      actuadores := SetServomotor(actuadores, angulo);
      EnviarComando("servomotor", Number(angulo));
    }

    /** controlarLuces: negate the lights and send the new state. */
    method ControlarLuces()
      requires Valid()
      modifies this`actuadores, this`transport
      ensures Valid()
      ensures actuadores == SetLuces(old(actuadores), !old(actuadores).luces)
      ensures transport == if ws == null then old(transport)
                           else old(transport) + [Send(ws, Command("luces", Boolean(!old(actuadores).luces)))]
    {
      var nuevoEstado := !actuadores.luces;
      actuadores := SetLuces(actuadores, nuevoEstado);
      EnviarComando("luces", Boolean(nuevoEstado));
    }

    /** One tick of the poll interval, which fires every 2000 ms (a period
        written into the component, not read from UPDATE_INTERVAL): a
        `getDatos` request, sent only while the interval exists. */
    method PollTick()
      requires Valid()
      modifies this`transport
      ensures Valid()
      ensures old(PollActive()) ==> transport == old(transport) + [Send(ws, POLL_REQUEST)]
      ensures !old(PollActive()) ==> transport == old(transport)
    {
      if conectado && ws != null {
        transport := transport + [Send(ws, POLL_REQUEST)];
      }
    }

    /** The cleanup of the effect on `ws`, run when the component unmounts or
        `ws` is replaced: close the socket if there is one. */
    method CleanupSocket()
      requires Valid()
      modifies this`transport
      ensures Valid()
      ensures ws == null ==> transport == old(transport)
      ensures ws != null ==> transport == old(transport) + [Close(ws)]
    {
      if ws != null {
        transport := transport + [Close(ws)];
      }
    }
  }

  /** A session as the component runs it: connect, open, then one decoded
      message, which becomes the sensor state and the only history entry. */
  method ScenarioIngest(decode: string -> Option<Reading>, data: string, now: Timestamp)
    requires decode(data) == Some(Reading(22, 60, 120, false, 30))
  {
    var d := new Dashboard();
    d.ToggleConexion(true);
    var s := d.ws;
    d.OnOpen(s);
    assert d.historicos == [];
    d.OnMessage(s, data, decode, now);
    UpdateOnEmpty(Entry(Reading(22, 60, 120, false, 30), now));
    assert d.ingested == [Entry(Reading(22, 60, 120, false, 30), now)];
    assert d.sensores == Reading(22, 60, 120, false, 30);
    assert d.historicos == [Entry(Reading(22, 60, 120, false, 30), now)];
  }

  /** A command before connecting is dropped; once connected, a stepper value
      outside the slider's range goes out unchanged; after the close event the
      poll sends nothing. */
  method ScenarioCommands()
  {
    var d := new Dashboard();
    d.EnviarComando("motorPaso", Number(90));
    assert d.transport == [];
    d.ToggleConexion(true);
    var s := d.ws;
    d.OnOpen(s);
    d.ControlarMotorPaso(400);
    assert d.actuadores.motorPaso == 400;
    assert d.transport == [Send(s, Frame("motorPaso", Some(Number(400))))];
    d.OnClose(s);
    d.PollTick();
    assert d.transport == [Send(s, Frame("motorPaso", Some(Number(400))))];
  }
}
