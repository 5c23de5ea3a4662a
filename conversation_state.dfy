/**
 * The per-session conversation record kept in the key-value store under
 * "estado_usuario:" + session id: a JSON object holding the current phase
 * (`estado_actual`), the saved answers (`datos_guardados`) and whatever else
 * a caller put there. JSON encoding and decoding of such objects is the
 * identity, so the store keeps the records themselves.
 */
module ConversationState {
  import opened Wrappers
  import opened Text
  import opened Dict
  import ScoreManager

  /** A field of a saved record: a JSON scalar or a nested object of scalars. */
  datatype Campo = Valor(v: Value) | Objeto(d: Dict<Value>)

  /** A saved record: a JSON object, fields in insertion order. */
  type Registro = Dict<Campo>

  /** The store key of a session's record. */
  function ClaveEstado(sessionId: string): (k: string)
    ensures StartsWith("estado_usuario:", k)
    ensures k[|"estado_usuario:"|..] == sessionId
  {
    StartsWithConcat("estado_usuario:", sessionId);
    "estado_usuario:" + sessionId
  }

  /** Different sessions never share a record. */
  lemma ClaveEstadoInyectiva(a: string, b: string)
    requires ClaveEstado(a) == ClaveEstado(b)
    ensures a == b
  {
  }

  /** Records and score profiles share the store without ever sharing a
      key: the two prefixes differ in their first character. */
  lemma ClavesDisjuntas(a: string, b: string)
    ensures ClaveEstado(a) != ScoreManager.ClavePuntuacion(b)
  {
    assert ClaveEstado(a)[0] == 'e';
    assert ScoreManager.ClavePuntuacion(b)[0] == 'p';
  }

  /** `estado["estado_actual"] = nuevo_estado` on the record read back, or on
      `{}` when there is none. */
  function ConEstadoActual(anterior: Option<Registro>, nuevoEstado: string): (r: Registro)
    ensures Get(r, "estado_actual") == Some(Valor(Str(nuevoEstado)))
    ensures forall k :: k != "estado_actual" ==> Get(r, k) == Get(anterior.GetOr([]), k)
    ensures anterior.None? ==> r == [("estado_actual", Valor(Str(nuevoEstado)))]
  {
    var base := anterior.GetOr([]);
    forall k | k != "estado_actual"
      ensures Get(Put(base, "estado_actual", Valor(Str(nuevoEstado))), k) == Get(base, k)
    {
      GetPutOtra(base, "estado_actual", Valor(Str(nuevoEstado)), k);
    }
    Put(base, "estado_actual", Valor(Str(nuevoEstado)))
  }

  /** Updating the phase of a record that has one keeps its fields and
      their order. */
  lemma ConEstadoActualMismasClaves(anterior: Registro, nuevoEstado: string)
    requires "estado_actual" in Keys(anterior)
    ensures Keys(ConEstadoActual(Some(anterior), nuevoEstado)) == Keys(anterior)
  {
    PutKeys(anterior, "estado_actual", Valor(Str(nuevoEstado)));
  }

  /**
   * The records kept in the key-value store. `disponible` is false when no
   * connection could be made at start-up; reads then find nothing and
   * writes do nothing. Expiry times are not kept.
   */
  class SessionStore {
    const disponible: bool
    var datos: map<string, Registro>

    constructor(disponible: bool)
      ensures this.disponible == disponible && datos == map[]
    {
      this.disponible := disponible;
      datos := map[];
    }

    /** `obtener_estado_usuario`: the session's record, or `None`. */
    function ObtenerEstadoUsuario(sessionId: string): (r: Option<Registro>)
      reads this
      ensures !disponible ==> r == None
      ensures disponible ==> r == if ClaveEstado(sessionId) in datos then Some(datos[ClaveEstado(sessionId)]) else None
    {
      var k := ClaveEstado(sessionId);
      if disponible && k in datos then Some(datos[k]) else None
    }

    /** `guardar_estado_usuario`: store the record, replacing any other. */
    method GuardarEstadoUsuario(sessionId: string, data: Registro)
      modifies this
      ensures !disponible ==> datos == old(datos)
      ensures disponible ==> datos == old(datos)[ClaveEstado(sessionId) := data]
      ensures disponible ==> ObtenerEstadoUsuario(sessionId) == Some(data)
    {
      if !disponible {
        return;
      }
      datos := datos[ClaveEstado(sessionId) := data];
    }

    /** `actualizar_estado_usuario`: read, set `estado_actual`, write back. */
    method ActualizarEstadoUsuario(sessionId: string, nuevoEstado: string)
      modifies this
      ensures !disponible ==> datos == old(datos)
      ensures disponible ==> datos == old(datos)[ClaveEstado(sessionId) :=
        ConEstadoActual(old(ObtenerEstadoUsuario(sessionId)), nuevoEstado)]
    {
      if !disponible {
        return;
      }
      var estado := ObtenerEstadoUsuario(sessionId);
      GuardarEstadoUsuario(sessionId, ConEstadoActual(estado, nuevoEstado));
    }

    /** `borrar_estado_usuario`: forget the session's record. */
    method BorrarEstadoUsuario(sessionId: string)
      modifies this
      ensures !disponible ==> datos == old(datos)
      ensures disponible ==> datos == old(datos) - {ClaveEstado(sessionId)}
      ensures ObtenerEstadoUsuario(sessionId) == None
    {
      if !disponible {
        return;
      }
      datos := datos - {ClaveEstado(sessionId)};
    }
  }

  /** The state test against an available store: a saved record is read
      back, updating the phase changes `estado_actual` and keeps the other
      field, and after deletion nothing is found. */
  method EscenarioEstado(sessionId: string, inicial: Registro)
    returns (leido: Option<Registro>, estadoTrasActualizar: Option<Campo>, otroTrasActualizar: Option<Campo>,
             trasBorrar: Option<Registro>)
    ensures leido == Some(inicial)
    ensures estadoTrasActualizar == Some(Valor(Str("preguntar_nombre")))
    ensures otroTrasActualizar == Get(inicial, "nombre_usuario")
    ensures trasBorrar == None
  {
    var store := new SessionStore(true);
    store.GuardarEstadoUsuario(sessionId, inicial);
    leido := store.ObtenerEstadoUsuario(sessionId);
    store.ActualizarEstadoUsuario(sessionId, "preguntar_nombre");
    var actualizado := store.ObtenerEstadoUsuario(sessionId);
    estadoTrasActualizar := Get(actualizado.value, "estado_actual");
    otroTrasActualizar := Get(actualizado.value, "nombre_usuario");
    store.BorrarEstadoUsuario(sessionId);
    trasBorrar := store.ObtenerEstadoUsuario(sessionId);
  }
}
