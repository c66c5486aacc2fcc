/**
 * `BeanUtils.getProperty` returns the string form of a property, not the
 * property's value. `getKey`, `getColumnName` and `getSuperColumnName` then
 * read a second property from that result, so they look for the property on a
 * `java.lang.String` rather than on the referenced object. This module states
 * the code as written and shows where it departs from `Engine.GetKey` and
 * `Engine.ResolveName`, which read the referenced object as intended.
 */
module Findings {
  import opened Results
  import opened Annotations
  import opened Structure
  import opened Storage
  import opened Engine

  /** The bean properties of `java.lang.String` (Java 6): `getBytes()`, `getClass()` and `isEmpty()`. */
  const StringBeanProperties: set<string> := {"bytes", "class", "empty"}

  /**
   * `BeanUtils.getProperty` as written: the property converted to its string
   * form. An object property gives its `toString()` (`show`); on a string bean
   * only the getters of `java.lang.String` exist, whose string forms are
   * `textProperty`.
   */
  function GetPropertyText(bean: Value, name: Option<string>, show: Entity -> string,
                           textProperty: (string, string) -> Value): (r: Result<Value, EngineError>)
    ensures r.Success? ==> !r.value.Ref?
    ensures bean.Atom? && name.Some? && name.value !in StringBeanProperties ==> r == Failure(NoSuchProperty(name.value))
    ensures bean.Ref? && r.Success? ==> name.Some? && name.value in bean.target.props
  {
    if bean.Null? then Failure(NullBean)
    else if name.None? then Failure(NullPropertyName)
    else if bean.Atom? then
      if name.value in StringBeanProperties then
        var v := textProperty(bean.text, name.value);
        Success(if v.Ref? then Atom(show(v.target)) else v)
      else Failure(NoSuchProperty(name.value))
    else if name.value !in bean.target.props then Failure(NoSuchProperty(name.value))
    else
      var v := bean.target.props[name.value];
      Success(if v.Ref? then Atom(show(v.target)) else v)
  }

  /**
   * The try block of `getKey` as written: the dependee is read as text, so a
   * dependent key is found only under a property of `java.lang.String`.
   */
  function KeyOfAsWritten(meta: ClassDesc, e: Entity, show: Entity -> string,
                          textProperty: (string, string) -> Value): (r: Result<Value, EngineError>)
    ensures !meta.dependentKey ==>
      (r.Success? <==> meta.keyFieldName.Some? && meta.keyFieldName.value in e.props)
    ensures meta.dependentKey && r.Success? ==>
      meta.dependentKeyFieldName.Some? && meta.dependentKeyFieldName.value in StringBeanProperties
  {
    var held :- GetPropertyText(Ref(e), meta.keyFieldName, show, textProperty);
    if !meta.dependentKey then Success(held)
    else
      var key :- GetPropertyText(held, meta.dependentKeyFieldName, show, textProperty);
      if key.Null? then Failure(NullDependee(meta.clazz, meta.keyFieldName)) else Success(key)
  }

  /**
   * `getColumnName` / `getSuperColumnName` as written: the name property is
   * read from the field's text, so a dynamic name is found only under a
   * property of `java.lang.String`.
   */
  function ResolveNameAsWritten(e: Entity, fieldName: string, literal: Option<string>, nameField: Option<string>,
                                show: Entity -> string, textProperty: (string, string) -> Value)
    : (r: Result<Option<string>, EngineError>)
    ensures literal.Some? ==> r == Success(literal)
    ensures literal.None? && r.Success? ==> nameField.Some? && nameField.value in StringBeanProperties
  {
    if literal.Some? then Success(literal)
    else
      var target :- GetPropertyText(Ref(e), Some(fieldName), show, textProperty);
      var v :- GetPropertyText(target, nameField, show, textProperty);
      AsName(v)
  }

  /**
   * The input that shows it: an entity whose `owner` field refers to an object
   * with `name == "x"`, under `@CassandraColumnName(field = "name")`. The code
   * as written fails; the intended reading names the column `x`.
   */
  lemma DynamicNameCounterexample(show: Entity -> string, textProperty: (string, string) -> Value)
    ensures var owner := Entity("Owner", map["name" := Atom("x")]);
            var e := Entity("Item", map["owner" := Ref(owner)]);
            && ResolveNameAsWritten(e, "owner", None, Some("name"), show, textProperty).Failure?
            && ResolveName(e, "owner", None, Some("name")) == Success(Some("x"))
  {
    var owner := Entity("Owner", map["name" := Atom("x")]);
    var e := Entity("Item", map["owner" := Ref(owner)]);
    assert "name" !in StringBeanProperties;
  }

  /**
   * The input that shows it for keys: an entity whose key field `owner` refers
   * to an object with `id == "7"`, under a dependent key on `id`. The code as
   * written fails; the intended reading gives the key `7`.
   */
  lemma DependentKeyCounterexample(show: Entity -> string, textProperty: (string, string) -> Value)
    ensures var owner := Entity("Owner", map["id" := Atom("7")]);
            var e := Entity("Item", map["owner" := Ref(owner)]);
            var meta := ClassDesc("Item", "item", false, None, Some("owner"), true, Some("id"), false, None, map[]);
            && KeyOfAsWritten(meta, e, show, textProperty).Failure?
            && GetKey(meta, e) == Success(Atom("7"))
  {
    assert "id" !in StringBeanProperties;
  }
}
