/** The library routines the engine calls but whose grammars lie outside the model: `int()`,
    `float()`, `decimal.Decimal()`, `datetime.strptime` with the two formats the engine uses,
    `json.loads` and `xml.etree.ElementTree.fromstring`. They are passed to the operations that
    need them as a value of `Lib`, so every property proved holds for any behaviour of theirs. */
module Foreign {
  import opened Wrappers
  import opened Values
  import opened XmlTree

  datatype Lib = Lib(
    toInt: Value -> Result<int>,              // int(v): ValueError or TypeError
    toFloat: Value -> Result<string>,         // float(v), by its repr
    toDecimal: Value -> Result<string>,       // Decimal(v), by its str: InvalidOperation or TypeError
    parseYmdHms: string -> Option<Datetime>,  // datetime.strptime(s, "%Y-%m-%d %H:%M:%S")
    parseYmd: string -> Option<Date>,         // datetime.strptime(s, "%Y-%m-%d"), at midnight
    loadJson: string -> Option<Value>,        // json.loads(s); None is JSONDecodeError
    parseXml: string -> Option<Element>)      // ET.fromstring(s); None is ParseError
}
