/** The reserved words of the SQL lexer: the keyword kinds that follow
    `itemKeyword` in the item type enumeration, and the `key` table that maps
    an upper-cased word to its kind. */
module Keywords {

  datatype Option<T> = None | Some(value: T)

  /** The keyword kinds, in declaration order. Several words share a kind:
      JoinKw, LikeKw, CtimeKw and Temp. */
  datatype Keyword =
    Abort
    | Action
    | Add
    | After
    | All
    | Alter
    | Analyze
    | And
    | As
    | Asc
    | Attach
    | Autoincr
    | Before
    | Begin
    | Between
    | By
    | Cascade
    | Case
    | Cast
    | Check
    | Collate
    | ColumnKw
    | Commit
    | Conflict
    | Constraint
    | Create
    | CtimeKw
    | Database
    | Default
    | Deferrable
    | Deferred
    | Delete
    | Desc
    | Detach
    | Distinct
    | Drop
    | Each
    | Else
    | End
    | Escape
    | Except
    | Exclusive
    | Exists
    | Explain
    | Fail
    | For
    | Foreign
    | From
    | Group
    | Having
    | If
    | Ignore
    | Immediate
    | In
    | Index
    | Indexed
    | Initially
    | Insert
    | Instead
    | Intersect
    | Into
    | Is
    | Isnull
    | Join
    | JoinKw
    | Key
    | LikeKw
    | Limit
    | Match
    | No
    | Not
    | NotNull
    | Null
    | Of
    | Offset
    | On
    | Or
    | Order
    | Plan
    | Pragma
    | Primary
    | Query
    | Raise
    | Recursive
    | References
    | Reindex
    | Release
    | Rename
    | Replace
    | Restrict
    | Rollback
    | Row
    | Savepoint
    | Select
    | Set
    | Table
    | Temp
    | Then
    | To
    | Transaction
    | Trigger
    | Union
    | Unique
    | Update
    | Using
    | Vacuum
    | Values
    | View
    | Virtual
    | When
    | Where
    | With
    | Without

  /** The `key` table, grouped by initial letter: the `i`-th reserved word
      that starts with `c` and its kind, in the table's order, or None past
      the last one. No letter starts more than 14 of them. */
  function Bucket(c: char, i: nat): Option<(string, Keyword)>
  {
    match c
    case 'A' =>
      (match i
      case 0 => Some(("ABORT", Abort))
      case 1 => Some(("ACTION", Action))
      case 2 => Some(("ADD", Add))
      case 3 => Some(("AFTER", After))
      case 4 => Some(("ALL", All))
      case 5 => Some(("ALTER", Alter))
      case 6 => Some(("ANALYZE", Analyze))
      case 7 => Some(("AND", And))
      case 8 => Some(("AS", As))
      case 9 => Some(("ASC", Asc))
      case 10 => Some(("ATTACH", Attach))
      case 11 => Some(("AUTOINCREMENT", Autoincr))
      case _ => None)
    case 'B' =>
      (match i
      case 0 => Some(("BEFORE", Before))
      case 1 => Some(("BEGIN", Begin))
      case 2 => Some(("BETWEEN", Between))
      case 3 => Some(("BY", By))
      case _ => None)
    case 'C' =>
      (match i
      case 0 => Some(("CASCADE", Cascade))
      case 1 => Some(("CASE", Case))
      case 2 => Some(("CAST", Cast))
      case 3 => Some(("CHECK", Check))
      case 4 => Some(("COLLATE", Collate))
      case 5 => Some(("COLUMN", ColumnKw))
      case 6 => Some(("COMMIT", Commit))
      case 7 => Some(("CONFLICT", Conflict))
      case 8 => Some(("CONSTRAINT", Constraint))
      case 9 => Some(("CREATE", Create))
      case 10 => Some(("CROSS", JoinKw))
      case 11 => Some(("CURRENT_DATE", CtimeKw))
      case 12 => Some(("CURRENT_TIME", CtimeKw))
      case 13 => Some(("CURRENT_TIMESTAMP", CtimeKw))
      case _ => None)
    case 'D' =>
      (match i
      case 0 => Some(("DATABASE", Database))
      case 1 => Some(("DEFAULT", Default))
      case 2 => Some(("DEFERRED", Deferred))
      case 3 => Some(("DEFERRABLE", Deferrable))
      case 4 => Some(("DELETE", Delete))
      case 5 => Some(("DESC", Desc))
      case 6 => Some(("DETACH", Detach))
      case 7 => Some(("DISTINCT", Distinct))
      case 8 => Some(("DROP", Drop))
      case _ => None)
    case 'E' =>
      (match i
      case 0 => Some(("END", End))
      case 1 => Some(("EACH", Each))
      case 2 => Some(("ELSE", Else))
      case 3 => Some(("ESCAPE", Escape))
      case 4 => Some(("EXCEPT", Except))
      case 5 => Some(("EXCLUSIVE", Exclusive))
      case 6 => Some(("EXISTS", Exists))
      case 7 => Some(("EXPLAIN", Explain))
      case _ => None)
    case 'F' =>
      (match i
      case 0 => Some(("FAIL", Fail))
      case 1 => Some(("FOR", For))
      case 2 => Some(("FOREIGN", Foreign))
      case 3 => Some(("FROM", From))
      case 4 => Some(("FULL", JoinKw))
      case _ => None)
    case 'G' =>
      (match i
      case 0 => Some(("GLOB", LikeKw))
      case 1 => Some(("GROUP", Group))
      case _ => None)
    case 'H' =>
      (match i
      case 0 => Some(("HAVING", Having))
      case _ => None)
    case 'I' =>
      (match i
      case 0 => Some(("IF", If))
      case 1 => Some(("IGNORE", Ignore))
      case 2 => Some(("IMMEDIATE", Immediate))
      case 3 => Some(("IN", In))
      case 4 => Some(("INDEX", Index))
      case 5 => Some(("INDEXED", Indexed))
      case 6 => Some(("INITIALLY", Initially))
      case 7 => Some(("INNER", JoinKw))
      case 8 => Some(("INSERT", Insert))
      case 9 => Some(("INSTEAD", Instead))
      case 10 => Some(("INTERSECT", Intersect))
      case 11 => Some(("INTO", Into))
      case 12 => Some(("IS", Is))
      case 13 => Some(("ISNULL", Isnull))
      case _ => None)
    case 'J' =>
      (match i
      case 0 => Some(("JOIN", Join))
      case _ => None)
    case 'K' =>
      (match i
      case 0 => Some(("KEY", Key))
      case _ => None)
    case 'L' =>
      (match i
      case 0 => Some(("LEFT", JoinKw))
      case 1 => Some(("LIKE", LikeKw))
      case 2 => Some(("LIMIT", Limit))
      case _ => None)
    case 'M' =>
      (match i
      case 0 => Some(("MATCH", Match))
      case _ => None)
    case 'N' =>
      (match i
      case 0 => Some(("NATURAL", JoinKw))
      case 1 => Some(("NO", No))
      case 2 => Some(("NOT", Not))
      case 3 => Some(("NOTNULL", NotNull))
      case 4 => Some(("NULL", Null))
      case _ => None)
    case 'O' =>
      (match i
      case 0 => Some(("OF", Of))
      case 1 => Some(("OFFSET", Offset))
      case 2 => Some(("ON", On))
      case 3 => Some(("OR", Or))
      case 4 => Some(("ORDER", Order))
      case 5 => Some(("OUTER", JoinKw))
      case _ => None)
    case 'P' =>
      (match i
      case 0 => Some(("PLAN", Plan))
      case 1 => Some(("PRAGMA", Pragma))
      case 2 => Some(("PRIMARY", Primary))
      case _ => None)
    case 'Q' =>
      (match i
      case 0 => Some(("QUERY", Query))
      case _ => None)
    case 'R' =>
      (match i
      case 0 => Some(("RAISE", Raise))
      case 1 => Some(("RECURSIVE", Recursive))
      case 2 => Some(("REFERENCES", References))
      case 3 => Some(("REGEXP", LikeKw))
      case 4 => Some(("REINDEX", Reindex))
      case 5 => Some(("RELEASE", Release))
      case 6 => Some(("RENAME", Rename))
      case 7 => Some(("REPLACE", Replace))
      case 8 => Some(("RESTRICT", Restrict))
      case 9 => Some(("RIGHT", JoinKw))
      case 10 => Some(("ROLLBACK", Rollback))
      case 11 => Some(("ROW", Row))
      case _ => None)
    case 'S' =>
      (match i
      case 0 => Some(("SAVEPOINT", Savepoint))
      case 1 => Some(("SELECT", Select))
      case 2 => Some(("SET", Set))
      case _ => None)
    case 'T' =>
      (match i
      case 0 => Some(("TABLE", Table))
      case 1 => Some(("TEMP", Temp))
      case 2 => Some(("TEMPORARY", Temp))
      case 3 => Some(("THEN", Then))
      case 4 => Some(("TO", To))
      case 5 => Some(("TRANSACTION", Transaction))
      case 6 => Some(("TRIGGER", Trigger))
      case _ => None)
    case 'U' =>
      (match i
      case 0 => Some(("UNION", Union))
      case 1 => Some(("UNIQUE", Unique))
      case 2 => Some(("UPDATE", Update))
      case 3 => Some(("USING", Using))
      case _ => None)
    case 'V' =>
      (match i
      case 0 => Some(("VACUUM", Vacuum))
      case 1 => Some(("VALUES", Values))
      case 2 => Some(("VIEW", View))
      case 3 => Some(("VIRTUAL", Virtual))
      case _ => None)
    case 'W' =>
      (match i
      case 0 => Some(("WITH", With))
      case 1 => Some(("WITHOUT", Without))
      case 2 => Some(("WHEN", When))
      case 3 => Some(("WHERE", Where))
      case _ => None)
    case _ => None
  }

  /** `key[w]`: the kind of the upper-case reserved word `w`, or None when
      `w` is not in the table. */
  function Lookup(w: string): Option<Keyword>
  {
    if w == [] then None else Find(w, 0)
  }

  /** The search of `w` among the words that share its initial, from the
      `i`-th one on. */
  function Find(w: string, i: nat): Option<Keyword>
    requires w != []
    decreases 16 - i
  {
    if i >= 16 then None
    else match Bucket(w[0], i)
      case None => None
      case Some(e) => if e.0 == w then Some(e.1) else Find(w, i + 1)
  }


  /** ASCII upper-casing of one character (the model's `strings.ToUpper`). */
  function UpperChar(c: char): char
  {
    if 'a' <= c <= 'z' then (c as int - 32) as char else c
  }

  /** ASCII upper-casing of a word, character by character. */
  function Upper(w: string): (u: string)
    ensures |u| == |w|
    ensures forall i | 0 <= i < |w| :: u[i] == UpperChar(w[i])
  {
    if w == [] then [] else [UpperChar(w[0])] + Upper(w[1..])
  }
}
