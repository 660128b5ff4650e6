/** What the parser hands over: the records of src/plugins/config/file.h. */
module ConfigFile {
  import opened Wrappers

  datatype PluginType = PNone | PStorage | PSensor | PProto | PAuth

  datatype DataType = DNone | DCounter | DDerive | DAbsolute | DGauge

  datatype Consolidation = CAverage | CMin | CMax | CLast

  datatype GlobalPlugin = GlobalPlugin(name: string, ptype: PluginType, file: Option<string>)

  /** struct global_storage and struct global_sensor. */
  datatype Instance = Instance(name: string, plugin: string, values: seq<(string, string)>)

  datatype DataSet = DataSet(name: string, desc: Option<string>, dtype: DataType, cf: Consolidation,
                             sensor: Option<string>, storage: Option<string>, system: string)

  datatype System = System(name: string, desc: Option<string>)

  /** One add_* call. */
  datatype Added =
    | AddPlugin(plugin: GlobalPlugin)
    | AddStorage(storage: Instance)
    | AddSensor(sensor: Instance)
    | AddDataSet(dset: DataSet)
    | AddSystem(system: System)

  // The freshly allocated structures.

  const NEW_PLUGIN := GlobalPlugin("", PNone, None)

  const NEW_DATA_SET := DataSet("", None, DNone, CAverage, None, None, "")

  const NEW_SYSTEM := System("", None)
}
