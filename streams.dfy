/**
 * The fixed table of radio streams the server can relay (the `STREAMS`
 * object of server.js). A stream is a pair of an upstream URL and the
 * human-readable description that listeners are shown.
 */
module Streams {

  /** The keys of the table. */
  datatype StreamId = Maraba | Imaculado | Classica | Ametista | Live | Missa

  datatype Stream = Stream(url: string, description: string)

  /** The table itself. Note that `Maraba` and `Ametista` share one URL. */
  function Lookup(id: StreamId): (s: Stream)
    ensures s.description != ""
    ensures "http://" <= s.url || "https://" <= s.url
  {
    match id
    case Maraba => Stream("https://streaming.speedrs.com.br/radio/8010/maraba", "Marabá")
    case Imaculado => Stream("http://r13.ciclano.io:9033/live", "Voz do Coração Imaculado")
    case Classica => Stream("https://stream.srg-ssr.ch/m/rsc_de/mp3_128", "Clássica")
    case Ametista => Stream("https://streaming.speedrs.com.br/radio/8010/maraba", "Ametista FM")
    case Live => Stream("http://localhost:8000/live", "AO VIVO - Missa")
    case Missa => Stream("http://localhost:8000/missa", "Missa de Sábado")
  }

  /**
   * Listeners only ever receive a stream's description, never its key or
   * URL; the description is enough to tell every entry of the table apart.
   */
  lemma DescriptionIdentifiesStream(a: StreamId, b: StreamId)
    requires Lookup(a).description == Lookup(b).description
    ensures a == b
  {
  }

  /** The URL, by contrast, does not identify the entry. */
  lemma UrlIsShared()
    ensures Lookup(Maraba).url == Lookup(Ametista).url && Maraba != Ametista
  {
  }
}
