/** The accessor-naming strategy for Protobuf-generated classes. It answers two
    questions that MapStruct asks about every method of a source type: is it a
    getter, and what property does it stand for. On top of the general Protobuf
    strategy it exposes the raw-int accessor `get<X>Value()` of an enum field as
    the property `x`, and hides the typed accessor `get<X>()` whose return type is
    a Protobuf enum, so that unknown enum numbers are never lost. */
module ProtobufEnumNaming {
  import opened Reflection
  import opened Introspector

  const ProtobufEnumInterface: string := "com.google.protobuf.ProtocolMessageEnum"
  const ProtobufLiteEnumInterface: string := "com.google.protobuf.Internal.EnumLite"

  const GetPrefix: string := "get"
  const ValueSuffix: string := "Value"
  const CaseSuffix: string := "Case"

  /** String.startsWith */
  predicate StartsWith(s: string, prefix: string) {
    |prefix| <= |s| && s[..|prefix|] == prefix
  }

  /** String.endsWith */
  predicate EndsWith(s: string, suffix: string) {
    |suffix| <= |s| && s[|s| - |suffix|..] == suffix
  }

  // ---------------------------------------------------------------------------
  // Method-name patterns

  /** A name that starts with "get" and ends with a suffix whose first letter is
      not in "get" holds the two apart: it is at least as long as both together. */
  lemma {:induction false} GetPrefixPrecedesSuffix(methodName: string, suffix: string)
    requires |suffix| > 0 && suffix[0] !in GetPrefix
    requires StartsWith(methodName, GetPrefix) && EndsWith(methodName, suffix)
    ensures |methodName| >= |GetPrefix| + |suffix|
  {
    var n := |methodName|;
    forall k | 0 <= k < |GetPrefix| ensures methodName[k] != suffix[0] {
      assert methodName[k] == methodName[..|GetPrefix|][k];
    }
    assert methodName[n - |suffix|] == methodName[n - |suffix|..][0] == suffix[0];
  }

  /** The raw-int accessor of an enum field: `get<X>Value`. "get" and "Value"
      cannot overlap, so such a name has at least eight characters and
      `substring(3, length - 5)` is in bounds. */
  function IsGetterForEnumPlainIntValue(methodName: string): (r: bool)
    ensures r ==> |methodName| >= |GetPrefix| + |ValueSuffix|
  {
    if StartsWith(methodName, GetPrefix) && EndsWith(methodName, ValueSuffix) then
      GetPrefixPrecedesSuffix(methodName, ValueSuffix);
      true
    else
      false
  }

  /** The discriminator of a oneof group: `get<X>Case`. "get" and "Case" cannot
      overlap, so such a name has at least seven characters. */
  function IsOneOfDataCase(m: ExecutableElement): (r: bool)
    ensures r ==> |m.simpleName| >= |GetPrefix| + |CaseSuffix|
  {
    if StartsWith(m.simpleName, GetPrefix) && EndsWith(m.simpleName, CaseSuffix) then
      GetPrefixPrecedesSuffix(m.simpleName, CaseSuffix);
      true
    else
      false
  }

  /** The X of `get<X>Value`: what the strategy cuts out of a raw-int accessor name
      (`substring(3, length - 5)`). */
  function EnumValueStem(methodName: string): (stem: string)
    requires IsGetterForEnumPlainIntValue(methodName)
    ensures methodName == GetPrefix + stem + ValueSuffix
  {
    var stem := methodName[|GetPrefix|..|methodName| - |ValueSuffix|];
    assert methodName == methodName[..|GetPrefix|] + stem + methodName[|methodName| - |ValueSuffix|..];
    stem
  }

  /** Every `get<X>Value` is a raw-int accessor name, and X is what is cut out of
      it; with the ensures of EnumValueStem, the raw-int accessor names are exactly
      the names of the form "get" + X + "Value". */
  lemma {:induction false} EnumValueStemOfAccessor(stem: string)
    ensures IsGetterForEnumPlainIntValue(GetPrefix + stem + ValueSuffix)
    ensures EnumValueStem(GetPrefix + stem + ValueSuffix) == stem
  {
    var name := GetPrefix + stem + ValueSuffix;
    assert name[..|GetPrefix|] == GetPrefix;
    assert name[|name| - |ValueSuffix|..] == ValueSuffix;
    assert name[|GetPrefix|..|name| - |ValueSuffix|] == stem;
  }

  /** Every `get<X>Case` is a oneof discriminator name. */
  lemma {:induction false} OneOfDataCaseOfStem(stem: string, returnType: TypeMirror)
    ensures IsOneOfDataCase(ExecutableElement(GetPrefix + stem + CaseSuffix, returnType))
  {
    var name := GetPrefix + stem + CaseSuffix;
    assert name[..|GetPrefix|] == GetPrefix;
    assert name[|name| - |CaseSuffix|..] == CaseSuffix;
  }

  /** No name is both a raw-int accessor and a oneof discriminator: "Value" and
      "Case" differ in their fourth-last character. */
  lemma {:induction false} PlainIntValueIsNotOneOfCase(m: ExecutableElement)
    requires IsGetterForEnumPlainIntValue(m.simpleName)
    ensures !IsOneOfDataCase(m)
  {
    var n := |m.simpleName|;
    assert m.simpleName[n - |CaseSuffix|..][0] == m.simpleName[n - |ValueSuffix|..][1] == 'a';
    assert m.simpleName[n - |CaseSuffix|..] != CaseSuffix;
  }

  // ---------------------------------------------------------------------------
  // Enum recognition

  /** asTypeElement: the declaration behind a declared type; None (null in Java)
      for any other type, or for a declared type whose element is not a
      type declaration. */
  function AsTypeElement(typeMirror: TypeMirror): (e: Option<TypeElement>)
    ensures e.Some? <==> typeMirror.DeclaredType? && typeMirror.element.TypeElem?
    ensures e.Some? ==> typeMirror == DeclaredType(TypeElem(e.value))
  {
    match typeMirror
    case DeclaredType(TypeElem(typeElement)) => Some(typeElement)
    case _ => None
  }

  predicate IsProtobufEnumMarker(interfaceName: string) {
    interfaceName == ProtobufEnumInterface || interfaceName == ProtobufLiteEnumInterface
  }

  /** The declaration directly implements one of the two Protobuf enum marker
      interfaces (the transitive hierarchy is not searched). */
  predicate ImplementsProtobufEnumMarker(e: TypeElement) {
    ProtobufEnumInterface in e.interfaces || ProtobufLiteEnumInterface in e.interfaces
  }

  /** What isProtobufEnum answers for a type, cache or no cache. */
  predicate IsProtobufEnumType(typeMirror: TypeMirror) {
    AsTypeElement(typeMirror).Some? && ImplementsProtobufEnumMarker(AsTypeElement(typeMirror).value)
  }

  /** The loop over the directly implemented interfaces, which stops at the first
      marker interface. */
  method ScanInterfaces(interfaces: seq<string>) returns (isProtobufEnum: bool)
    ensures isProtobufEnum <==> ProtobufEnumInterface in interfaces || ProtobufLiteEnumInterface in interfaces
  {
    isProtobufEnum := false;
    for i := 0 to |interfaces|
      invariant forall k :: 0 <= k < i ==> !IsProtobufEnumMarker(interfaces[k])
    {
      if IsProtobufEnumMarker(interfaces[i]) {
        isProtobufEnum := true;
        break;
      }
    }
  }

  /** Every entry of the cache holds what a scan of its key gives. */
  ghost predicate SoundCache(cache: map<TypeElement, bool>) {
    forall e :: e in cache ==> cache[e] == ImplementsProtobufEnumMarker(e)
  }

  /** The cache after isProtobufEnum has been asked about a type: unchanged for a
      type without a declaration, otherwise holding the answer for it. */
  ghost function CacheAfterQuery(cache: map<TypeElement, bool>, typeMirror: TypeMirror): map<TypeElement, bool> {
    match AsTypeElement(typeMirror)
    case None => cache
    case Some(e) => cache[e := ImplementsProtobufEnumMarker(e)]
  }

  // ---------------------------------------------------------------------------
  // The strategy

  class ProtobufEnumExtendedAccessorNamingStrategy {
    /** ProtobufAccessorNamingStrategy.isGetterMethod, the inherited rule. */
    const baseIsGetterMethod: ExecutableElement -> bool
    /** ProtobufAccessorNamingStrategy.getPropertyName, the inherited rule. */
    const baseGetPropertyName: ExecutableElement -> string

    /** KNOWN_ENUMS */
    var knownEnums: map<TypeElement, bool>
    /** The declarations whose interfaces have been scanned, in order. */
    ghost var scanned: seq<TypeElement>

    /** The cache is sound, and each declaration has been scanned once: exactly
        the cached ones, none of them twice. */
    ghost predicate Valid()
      reads this
    {
      && SoundCache(knownEnums)
      && (forall e :: e in knownEnums <==> e in scanned)
      && (forall i, j :: 0 <= i < j < |scanned| ==> scanned[i] != scanned[j])
    }

    constructor (baseIsGetterMethod: ExecutableElement -> bool, baseGetPropertyName: ExecutableElement -> string)
      ensures Valid()
      ensures this.baseIsGetterMethod == baseIsGetterMethod
      ensures this.baseGetPropertyName == baseGetPropertyName
      ensures knownEnums == map[] && scanned == []
    {
      this.baseIsGetterMethod := baseIsGetterMethod;
      this.baseGetPropertyName := baseGetPropertyName;
      knownEnums := map[];
      scanned := [];
    }

    /** isProtobufEnum: whether a type is a Protobuf enum, memoized per declaration.
        False and true answers are both cached; a type without a declaration is
        answered false and not cached. */
    method IsProtobufEnum(typeMirror: TypeMirror) returns (isEnum: bool)
      requires Valid()
      modifies this`knownEnums, this`scanned
      ensures Valid()
      ensures isEnum == IsProtobufEnumType(typeMirror)
      ensures knownEnums == CacheAfterQuery(old(knownEnums), typeMirror)
      ensures forall e :: e in old(knownEnums) ==> e in knownEnums && knownEnums[e] == old(knownEnums)[e]
      ensures AsTypeElement(typeMirror).None? ==> !isEnum && knownEnums == old(knownEnums) && scanned == old(scanned)
      ensures AsTypeElement(typeMirror).Some? ==>
                var e := AsTypeElement(typeMirror).value;
                e in knownEnums && knownEnums[e] == isEnum
                && (e in old(knownEnums) ==>
                      isEnum == old(knownEnums)[e] && knownEnums == old(knownEnums) && scanned == old(scanned))
                && (e !in old(knownEnums) ==> scanned == old(scanned) + [e])
    {
      var enumType := AsTypeElement(typeMirror);
      if enumType.None? {
        return false;
      }
      var e := enumType.value;
      if e in knownEnums {
        isEnum := knownEnums[e];
        assert knownEnums[e := isEnum] == knownEnums;
      } else {
        isEnum := ScanInterfaces(e.interfaces);
        knownEnums := knownEnums[e := isEnum];
        scanned := scanned + [e];
      }
    }

    /** isGetterMethod: a raw-int accessor is always a getter; otherwise a method
        returning a Protobuf enum is not, unless it is a oneof discriminator; every
        other method is decided by the inherited rule. */
    method IsGetterMethod(m: ExecutableElement) returns (isGetter: bool)
      requires Valid()
      modifies this`knownEnums, this`scanned
      ensures Valid()
      ensures IsGetterForEnumPlainIntValue(m.simpleName) ==>
                isGetter && knownEnums == old(knownEnums) && scanned == old(scanned)
      ensures !IsGetterForEnumPlainIntValue(m.simpleName) ==>
                knownEnums == CacheAfterQuery(old(knownEnums), m.returnType)
      ensures !IsGetterForEnumPlainIntValue(m.simpleName) && IsProtobufEnumType(m.returnType) && !IsOneOfDataCase(m) ==>
                !isGetter
      ensures !IsGetterForEnumPlainIntValue(m.simpleName) && !(IsProtobufEnumType(m.returnType) && !IsOneOfDataCase(m)) ==>
                isGetter == baseIsGetterMethod(m)
      ensures IsOneOfDataCase(m) ==> isGetter == baseIsGetterMethod(m)
    {
      if IsGetterForEnumPlainIntValue(m.simpleName) {
        PlainIntValueIsNotOneOfCase(m);
        return true;
      }
      var returnsEnum := IsProtobufEnum(m.returnType);
      if returnsEnum && !IsOneOfDataCase(m) {
        return false;
      }
      isGetter := baseIsGetterMethod(m);
    }

    /** getPropertyName: `get<X>Value` names the property decapitalize(X), a name
        eight characters shorter than the accessor's and already in JavaBeans form;
        any other method is named by the inherited rule, unchanged. */
    function GetPropertyName(m: ExecutableElement): (name: string)
      ensures IsGetterForEnumPlainIntValue(m.simpleName) ==>
                |name| == |m.simpleName| - |GetPrefix| - |ValueSuffix| && Decapitalize(name) == name
      ensures !IsGetterForEnumPlainIntValue(m.simpleName) ==> name == baseGetPropertyName(m)
    {
      if IsGetterForEnumPlainIntValue(m.simpleName) then
        var stem := EnumValueStem(m.simpleName);
        DecapitalizeIdempotent(stem);
        Decapitalize(stem)
      else
        baseGetPropertyName(m)
    }
  }

  // ---------------------------------------------------------------------------
  // Properties of the property names

  /** The raw-int accessor of an enum field is named after the field: for every X,
      `get<X>Value` names the property decapitalize(X), whatever it returns. */
  lemma {:induction false} RawAccessorPropertyName(
    strategy: ProtobufEnumExtendedAccessorNamingStrategy, stem: string, returnType: TypeMirror)
    ensures strategy.GetPropertyName(ExecutableElement(GetPrefix + stem + ValueSuffix, returnType)) == Decapitalize(stem)
  {
    EnumValueStemOfAccessor(stem);
  }

  /** A method named exactly "getValue" is taken for a raw-int accessor with an
      empty X, so its property name is the empty string. */
  lemma BareValueAccessorHasEmptyName(strategy: ProtobufEnumExtendedAccessorNamingStrategy, returnType: TypeMirror)
    ensures IsGetterForEnumPlainIntValue("getValue")
    ensures strategy.GetPropertyName(ExecutableElement("getValue", returnType)) == ""
  {
    RawAccessorPropertyName(strategy, "", returnType);
    assert GetPrefix + "" + ValueSuffix == "getValue";
  }
}
