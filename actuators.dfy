/** The actuator state of DashboardIoT.js, its one-field updaters, and the
    command frames that the dashboard hands to the WebSocket. */
module Actuators {
  import opened Wrappers

  /** Stepper angle, servo angle and lights, as the dashboard last set them.
      Nothing from the device ever corrects them. */
  datatype Actuators = Actuators(motorPaso: int, servomotor: int, luces: bool)

  /** The state of the first render. */
  const INITIAL_ACTUADORES := Actuators(0, 0, false)

  /** `{ ...prev, motorPaso: grados }`: the value is taken as given, with no
      clamping to the slider's range. */
  function SetMotorPaso(a: Actuators, grados: int): (r: Actuators)
    ensures r.motorPaso == grados
    ensures r.servomotor == a.servomotor && r.luces == a.luces
  {
    a.(motorPaso := grados)
  }

  /** `{ ...prev, servomotor: angulo }`. */
  function SetServomotor(a: Actuators, angulo: int): (r: Actuators)
    ensures r.servomotor == angulo
    ensures r.motorPaso == a.motorPaso && r.luces == a.luces
  {
    a.(servomotor := angulo)
  }

  /** `{ ...prev, luces: nuevoEstado }`. */
  function SetLuces(a: Actuators, nuevoEstado: bool): (r: Actuators)
    ensures r.luces == nuevoEstado
    ensures r.motorPaso == a.motorPaso && r.servomotor == a.servomotor
  {
    a.(luces := nuevoEstado)
  }

  /** Negating the lights twice restores the state. */
  lemma ToggleLucesTwice(a: Actuators)
    ensures var b := SetLuces(a, !a.luces); SetLuces(b, !b.luces) == a
  {
  }

  /** The updaters touch different fields, so their order does not matter, and
      of two updates of one field the later one wins. */
  lemma UpdatersCommute(a: Actuators, grados: int, angulo: int, luces: bool)
    ensures SetMotorPaso(SetServomotor(a, angulo), grados) == SetServomotor(SetMotorPaso(a, grados), angulo)
    ensures SetMotorPaso(SetLuces(a, luces), grados) == SetLuces(SetMotorPaso(a, grados), luces)
    ensures SetServomotor(SetLuces(a, luces), angulo) == SetLuces(SetServomotor(a, angulo), luces)
  {
  }

  lemma LaterUpdateWins(a: Actuators, g1: int, g2: int)
    ensures SetMotorPaso(SetMotorPaso(a, g1), g2) == SetMotorPaso(a, g2)
    ensures SetServomotor(SetServomotor(a, g1), g2) == SetServomotor(a, g2)
  {
  }

  /** A JSON value carried in a frame: a slider number or a switch state. */
  datatype Value = Number(n: int) | Boolean(b: bool)

  /** An outbound frame `{tipo, valor}`; `valor` is absent in a poll request. */
  datatype Frame = Frame(tipo: string, valor: Option<Value>)

  /** The object that enviarComando serialises. */
  function Command(tipo: string, valor: Value): (f: Frame)
    ensures f.tipo == tipo && f.valor == Some(valor)
  {
    Frame(tipo, Some(valor))
  }

  /** `{ tipo: 'getDatos' }`, the poll request. */
  const POLL_REQUEST := Frame("getDatos", None)

  /** A command frame always carries its value and the poll request never
      does, so no command is mistaken for a poll. */
  lemma PollRequestIsNoCommand(tipo: string, valor: Value)
    ensures Command(tipo, valor) != POLL_REQUEST
  {
  }
}
