/** The boot-model key: the list of column names of a foreign key, which is
    appended to, deep-copied and built into its mapping binding. */
module BootKey {

  /** The binding a column builds into. */
  datatype ColumnBinding = ColumnBinding(name: string)

  /** The binding a key builds into: its columns' bindings, in order. */
  datatype KeyBinding = KeyBinding(columns: seq<ColumnBinding>)

  /** A column of the boot model; only its name is modelled. */
  class Column {
    var name: string

    constructor (name: string)
      ensures this.name == name
    {
      this.name := name;
    }

    /** The copy constructor. */
    constructor Copy(column: Column)
      ensures name == column.name
    {
      name := column.name;
    }

    function Build(): ColumnBinding
      reads this
    {
      ColumnBinding(name)
    }
  }

  /** The bindings of `columns`, in order. */
  ghost function Bindings(columns: seq<Column>): (bindings: seq<ColumnBinding>)
    reads set i | 0 <= i < |columns| :: columns[i]
    ensures |bindings| == |columns|
    ensures forall i :: 0 <= i < |columns| ==> bindings[i] == ColumnBinding(columns[i].name)
  {
    if columns == [] then [] else Bindings(columns[..|columns| - 1]) + [columns[|columns| - 1].Build()]
  }

  class Key {
    var columns: seq<Column>

    constructor ()
      ensures columns == []
    {
      columns := [];
    }

    /** The copy constructor: a new column for each of `key`'s columns, in order,
        with the same name. */
    constructor Copy(key: Key)
      ensures |columns| == |key.columns|
      ensures forall i :: 0 <= i < |columns| ==> fresh(columns[i]) && columns[i].name == key.columns[i].name
      ensures forall i, j :: 0 <= i < j < |columns| ==> columns[i] != columns[j]
    {
      var copies: seq<Column> := [];
      for i := 0 to |key.columns|
        invariant |copies| == i
        invariant forall k :: 0 <= k < i ==> fresh(copies[k]) && copies[k].name == key.columns[k].name
        invariant forall k, l :: 0 <= k < l < i ==> copies[k] != copies[l]
      {
        var c := new Column.Copy(key.columns[i]);
        copies := copies + [c];
      }
      columns := copies;
    }

    /** `addColumn`: appends at the end. */
    method AddColumn(column: Column)
      modifies this
      ensures columns == old(columns) + [column]
    {
      columns := columns + [column];
    }

    /** `deepCopy`: a new key whose columns are new copies of these columns, so
        that changing the copy or its columns leaves this key as it is. */
    method DeepCopy() returns (copy: Key)
      ensures fresh(copy) && copy != this
      ensures |copy.columns| == |columns|
      ensures forall i :: 0 <= i < |columns| ==> fresh(copy.columns[i]) && copy.columns[i].name == columns[i].name
    {
      copy := new Key.Copy(this);
    }

    /** `build`: one column binding per column, in order. */
    method Build() returns (key: KeyBinding)
      ensures key.columns == Bindings(columns)
    {
      var built: seq<ColumnBinding> := [];
      for i := 0 to |columns|
        invariant built == Bindings(columns[..i])
      {
        built := built + [columns[i].Build()];
      }
      assert columns[..|columns|] == columns;
      key := KeyBinding(built);
    }
  }

  /** A deep copy is independent of its original: appending a column to the copy
      changes neither the original's column list nor any of its columns. */
  method AppendToDeepCopy(key: Key, column: Column) returns (copy: Key)
    ensures fresh(copy) && copy != key
    ensures |copy.columns| == |key.columns| + 1 && copy.columns[|key.columns|] == column
    ensures forall i :: 0 <= i < |key.columns| ==> copy.columns[i] != key.columns[i] && copy.columns[i].name == key.columns[i].name
    ensures key.columns == old(key.columns)
    ensures forall i :: 0 <= i < |key.columns| ==> key.columns[i].name == old(key.columns[i].name)
  {
    copy := key.DeepCopy();
    copy.AddColumn(column);
  }
}
