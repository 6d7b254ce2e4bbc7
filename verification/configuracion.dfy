/** The settings page's configuration record and its single-key update. */
module Configuracion {
  /** A setting is either a text field or a switch. */
  datatype Value = TextValue(text: string) | Switch(on: bool)

  type Config = map<string, Value>

  /** The record the page starts from. */
  const Initial: Config := map[
    "nombreEmpresa" := TextValue("ONVIA Transport"),
    "emailContacto" := TextValue("contacto@onvia.com"),
    "telefonoContacto" := TextValue("+54 11 1234-5678"),
    "direccion" := TextValue("Av. Principal 123, Buenos Aires"),
    "notificacionesEmail" := Switch(true),
    "notificacionesPush" := Switch(true),
    "notificacionesMantenimiento" := Switch(true),
    "notificacionesIncidentes" := Switch(true),
    "backupAutomatico" := Switch(true),
    "frecuenciaBackup" := TextValue("diario"),
    "retencionLogs" := TextValue("30"),
    "timeoutSesion" := TextValue("60"),
    "autenticacionDosFactor" := Switch(false),
    "complejidadPassword" := TextValue("media"),
    "intentosLogin" := TextValue("3"),
    "bloqueoTemporal" := TextValue("15")
  ]

  /** `updateConfiguracion(key, value)`: the key now holds the value, a new
      key is added, and every other key keeps its value. */
  function Update(c: Config, key: string, value: Value): (r: Config)
    ensures key in r && r[key] == value
    ensures r.Keys == c.Keys + {key}
    ensures forall k :: k in c && k != key ==> r[k] == c[k]
  {
    c[key := value]
  }

  /** Of two updates to the same key the later one wins. */
  lemma LastWriteWins(c: Config, key: string, v1: Value, v2: Value)
    ensures Update(Update(c, key, v1), key, v2) == Update(c, key, v2)
  {
  }

  /** Updates to different keys can be applied in either order. */
  lemma DistinctKeysCommute(c: Config, k1: string, v1: Value, k2: string, v2: Value)
    requires k1 != k2
    ensures Update(Update(c, k1, v1), k2, v2) == Update(Update(c, k2, v2), k1, v1)
  {
  }

  /** Writing a setting back with the value it already has changes nothing. */
  lemma UpdateWithSameValue(c: Config, key: string)
    requires key in c
    ensures Update(c, key, c[key]) == c
  {
  }

  /** A sample of the defaults, and updating one setting leaves the others
      at their defaults. */
  lemma InitialDefaults()
    ensures Initial["intentosLogin"] == TextValue("3")
    ensures Initial["timeoutSesion"] == TextValue("60")
    ensures Initial["autenticacionDosFactor"] == Switch(false)
    ensures Update(Initial, "timeoutSesion", TextValue("30"))["intentosLogin"] == TextValue("3")
  {
  }
}
