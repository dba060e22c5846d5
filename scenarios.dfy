/** Clients of the strategy: what MapStruct sees when it asks about the accessors
    of a generated message, from a freshly created strategy. */
module Scenarios {
  import opened Reflection
  import opened Introspector
  import opened ProtobufEnumNaming

  const IntType: TypeMirror := OtherType("int")

  /** A generated enum declaration that implements the given interfaces. */
  function EnumType(name: string, interfaces: seq<string>): (t: TypeMirror)
    ensures AsTypeElement(t) == Some(TypeElement(name, interfaces))
  {
    DeclaredType(TypeElem(TypeElement(name, interfaces)))
  }

  /** The field `status` of enum type `Status`: the typed accessor `getStatus()` is
      hidden, the raw accessor `getStatusValue()` is a getter of property "status". */
  method StatusField(baseIsGetterMethod: ExecutableElement -> bool, baseGetPropertyName: ExecutableElement -> string)
    returns (typedIsGetter: bool, rawIsGetter: bool, rawName: string)
    ensures !typedIsGetter
    ensures rawIsGetter
    ensures rawName == "status"
  {
    var strategy := new ProtobufEnumExtendedAccessorNamingStrategy(baseIsGetterMethod, baseGetPropertyName);
    var status := EnumType("Status", [ProtobufEnumInterface]);
    TypedStatusAccessor();
    typedIsGetter := strategy.IsGetterMethod(ExecutableElement("getStatus", status));
    rawIsGetter := strategy.IsGetterMethod(ExecutableElement("getStatusValue", IntType));
    StatusValueName(strategy, IntType);
    rawName := strategy.GetPropertyName(ExecutableElement("getStatusValue", IntType));
  }

  /** The discriminator `getPermissionCase()` of a oneof group returns a lite enum,
      yet it is decided by the inherited rule, not hidden. */
  method PermissionCaseDiscriminator(baseIsGetterMethod: ExecutableElement -> bool, baseGetPropertyName: ExecutableElement -> string)
    returns (isGetter: bool)
    ensures isGetter == baseIsGetterMethod(ExecutableElement("getPermissionCase", EnumType("PermissionCase", [ProtobufLiteEnumInterface])))
  {
    var strategy := new ProtobufEnumExtendedAccessorNamingStrategy(baseIsGetterMethod, baseGetPropertyName);
    var m := ExecutableElement("getPermissionCase", EnumType("PermissionCase", [ProtobufLiteEnumInterface]));
    OneOfDataCaseOfStem("Permission", m.returnType);
    PermissionCaseSpelling();
    isGetter := strategy.IsGetterMethod(m);
  }

  /** Asking twice about the same type gives the same answer; only the first
      question scans the interfaces, so the cache ends with one entry for a
      declared type and none for any other. */
  method RepeatedEnumQuery(
    baseIsGetterMethod: ExecutableElement -> bool, baseGetPropertyName: ExecutableElement -> string, typeMirror: TypeMirror)
    returns (first: bool, second: bool, cacheSize: nat)
    ensures first == second == IsProtobufEnumType(typeMirror)
    ensures cacheSize == if AsTypeElement(typeMirror).Some? then 1 else 0
  {
    var strategy := new ProtobufEnumExtendedAccessorNamingStrategy(baseIsGetterMethod, baseGetPropertyName);
    first := strategy.IsProtobufEnum(typeMirror);
    second := strategy.IsProtobufEnum(typeMirror);
    cacheSize := |strategy.knownEnums|;
  }

  /** getStatusValue() stands for the property status. */
  lemma StatusValueName(strategy: ProtobufEnumExtendedAccessorNamingStrategy, returnType: TypeMirror)
    ensures strategy.GetPropertyName(ExecutableElement("getStatusValue", returnType)) == "status"
  {
    RawAccessorPropertyName(strategy, "Status", returnType);
    StatusSpelling();
    assert Decapitalize("Status") == [ToLowerCase('S')] + "tatus";
  }

  /** The example in the Javadoc of getPropertyName: getUserEnumValue() stands for
      the property userEnum. */
  lemma UserEnumValueName(strategy: ProtobufEnumExtendedAccessorNamingStrategy, returnType: TypeMirror)
    ensures strategy.GetPropertyName(ExecutableElement("getUserEnumValue", returnType)) == "userEnum"
  {
    RawAccessorPropertyName(strategy, "UserEnum", returnType);
    UserEnumSpelling();
    assert Decapitalize("UserEnum") == [ToLowerCase('U')] + "serEnum";
  }

  lemma StatusSpelling()
    ensures GetPrefix + "Status" + ValueSuffix == "getStatusValue"
  {
    var name := GetPrefix + "Status" + ValueSuffix;
    forall i | 0 <= i < |name| ensures name[i] == "getStatusValue"[i] {
      if i < 3 { assert name[i] == GetPrefix[i]; }
      else if i < 9 { assert name[i] == "Status"[i - 3]; }
      else { assert name[i] == ValueSuffix[i - 9]; }
    }
  }

  lemma UserEnumSpelling()
    ensures GetPrefix + "UserEnum" + ValueSuffix == "getUserEnumValue"
  {
    var name := GetPrefix + "UserEnum" + ValueSuffix;
    forall i | 0 <= i < |name| ensures name[i] == "getUserEnumValue"[i] {
      if i < 3 { assert name[i] == GetPrefix[i]; }
      else if i < 11 { assert name[i] == "UserEnum"[i - 3]; }
      else { assert name[i] == ValueSuffix[i - 11]; }
    }
  }

  lemma PermissionCaseSpelling()
    ensures GetPrefix + "Permission" + CaseSuffix == "getPermissionCase"
  {
    var name := GetPrefix + "Permission" + CaseSuffix;
    forall i | 0 <= i < |name| ensures name[i] == "getPermissionCase"[i] {
      if i < 3 { assert name[i] == GetPrefix[i]; }
      else if i < 13 { assert name[i] == "Permission"[i - 3]; }
      else { assert name[i] == CaseSuffix[i - 13]; }
    }
  }

  /** "getStatus" ends in neither "Value" nor "Case". */
  lemma TypedStatusAccessor()
    ensures !EndsWith("getStatus", ValueSuffix) && !EndsWith("getStatus", CaseSuffix)
  {
    assert "getStatus"[4..][0] == 't';
    assert "getStatus"[5..][0] == 'a';
  }
}
