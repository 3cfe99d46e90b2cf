/** The content-type table of `send_static_file`. */
module StaticFiles {

  const OctetStream := "application/octet-stream"

  /** The table from file suffix to media type, as the handler declares it. */
  const ContentTypes: map<string, string> := map[
    ".css" := "text/css",
    ".png" := "image/png",
    ".jpg" := "image/jpeg",
    ".js" := "application/javascript",
    ".html" := "text/html"
  ]

  /** The Content-type header sent for a static file with suffix `ext`
      (`content_types.get(ext, 'application/octet-stream')`). */
  function ContentType(ext: string): (r: string)
    ensures ext in ContentTypes ==> r == ContentTypes[ext]
    ensures ext !in ContentTypes ==> r == OctetStream
    ensures r == OctetStream <==> ext !in ContentTypes
  {
    match ext
    case ".css" => "text/css"
    case ".png" => "image/png"
    case ".jpg" => "image/jpeg"
    case ".js" => "application/javascript"
    case ".html" => "text/html"
    case _ => OctetStream
  }

  /** Only the five listed suffixes have a type of their own: ".jpeg", an
      upper-case ".CSS" and the empty suffix all fall back to the default. */
  lemma UnlistedSuffixes()
    ensures ContentType(".jpeg") == OctetStream
    ensures ContentType(".CSS") == OctetStream
    ensures ContentType("") == OctetStream
  {
  }
}
