/** The records the engine passes around: column tags, filter rules, the
    analysed dataset and its column metadata, statistics, the quality
    profile and chart configurations. */
module Types {
  import opened Values
  import opened Rows

  /** The four column classifications, with their wire names. */
  datatype DataType = Numeric | Categorical | DateTime | Text
  {
    function Name(): string
    {
      match this
      case Numeric => "numeric"
      case Categorical => "categorical"
      case DateTime => "datetime"
      case Text => "text"
    }
  }

  datatype SortDirection = Asc | Desc

  datatype FilterOperator = Equals | Contains | Greater | Less | NotEquals

  /** One user filter: column, operator and the value typed by the user. */
  datatype FilterRule = FilterRule(column: string, operator: FilterOperator, value: string)

  /** A column of an analysed dataset: its values aligned with the rows,
      its detected type and its missing and distinct counts. */
  datatype DataColumn = DataColumn(name: string, dtype: DataType, values: seq<Cell>,
                                   missingCount: nat, uniqueCount: nat)

  datatype Dataset = Dataset(name: string, rows: seq<Row>, columns: seq<DataColumn>,
                             totalRows: nat, totalColumns: nat, memoryUsage: nat)

  /** Summary statistics of a numeric column; `mode` and `outliers` are
      never filled in by the basic statistics. */
  datatype ColumnStats = ColumnStats(mean: real, median: real, mode: Option<Cell>,
                                     minVal: real, maxVal: real, std: real, variance: real,
                                     quartiles: seq<real>, outliers: Option<seq<real>>)

  datatype DataQualityIssues = DataQualityIssues(duplicates: int, missingValues: nat, outliers: nat,
                                                 inconsistentTypes: nat, textIssues: nat)

  /** The `overview` dictionary of a profile. */
  datatype Overview = Overview(totalRows: nat, totalColumns: nat, memoryUsage: nat, completeness: real)

  /** One entry of a profile's `columns` list. */
  datatype ColumnInfo = ColumnInfo(name: string, typeName: string, uniqueCount: nat,
                                   missingCount: nat, completeness: real)

  datatype DataProfile = DataProfile(overview: Overview, quality: DataQualityIssues, columns: seq<ColumnInfo>)

  datatype ChartConfig = ChartConfig(chartType: string, xColumn: string, yColumn: Option<string>)
}
