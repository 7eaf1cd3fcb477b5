/** The one HTTP status every fetch in the exporter accepts; any other status
    is treated as a failed fetch. */
module Http {
  const OK: int := 200
}
