# Protobuf enum accessor naming, in Dafny

This project models `ProtobufEnumExtendedAccessorNamingStrategy`. It is a MapStruct
accessor-naming plug-in for classes that the Protocol Buffers compiler generates.
MapStruct asks it two questions about each method of a source type: is this method a
getter, and which property does it stand for?

- **Enum recognition** (`IsProtobufEnum`). A type is a Protobuf enum when its declaration
  directly implements `com.google.protobuf.ProtocolMessageEnum` or
  `com.google.protobuf.Internal.EnumLite`. The strategy caches each answer, true or false,
  per declaration in the `knownEnums` map (`KNOWN_ENUMS`). A type without a declaration,
  such as a primitive, is answered false and is not cached.
- **Getter classification** (`IsGetterMethod`). A raw-int accessor `get<X>Value` is always a
  getter. Otherwise a method that returns a Protobuf enum is not a getter, unless it is a
  oneof discriminator `get<X>Case`. Every other method is decided by the inherited rule.
- **Property naming** (`GetPropertyName`). `get<X>Value` names the property
  `decapitalize(X)`, so `getUserEnumValue` becomes `userEnum`. Every other method is named
  by the inherited rule.

Layout:

- `reflection.dfy` (module `Reflection`): the compiler's type and method handles as values.
- `introspector.dfy` (module `Introspector`): the JavaBeans `decapitalize` rule.
- `naming_strategy.dfy` (module `ProtobufEnumNaming`): the name patterns, `asTypeElement`,
  the interface scan, and the strategy class with its cache.
- `scenarios.dfy` (module `Scenarios`): clients that run a fresh strategy over the
  accessors of a generated message.

The inherited rules of `ProtobufAccessorNamingStrategy` are given to the class's
constructor as two function values, `baseIsGetterMethod` and `baseGetPropertyName`. The
strategy wraps them and overrides them where its own rules apply.

The class keeps two invariants in `Valid()`:

- Every cache entry holds what a scan of its declaration gives.
- The ghost log `scanned` lists the declarations whose interfaces were scanned. It holds
  exactly the cached keys, and none of them twice. So each declaration is scanned at most
  once, and a repeated question is answered from the cache.

Two consequences of the code's name tests:

- `getValue` itself counts as a raw-int accessor with an empty X, and its property name
  is `""` (`BareValueAccessorHasEmptyName`).
- The code decides a raw-int accessor by its name alone. So a method such as `getMaxValue`
  of an `int` field is a getter of the property `max`, whatever it returns.

## Model

| member | source | states |
|---|---|---|
| `Introspector.Decapitalize` | spi-impl/src/main/java/io/github/dnalchemist/mapstruct/spi/protobuf/ProtobufEnumExtendedAccessorNamingStrategy.java:105 | The JavaBeans rule applied to the stem: the length and every character after the first are kept; a name that starts with two capitals is returned unchanged; otherwise the first character is lower-cased, so it is no longer upper case. `Character.isUpperCase` and `Character.toLowerCase` are covered here as `IsUpperCase` and `ToLowerCase` |
| `Introspector.DecapitalizeIdempotent` | spi-impl/src/main/java/io/github/dnalchemist/mapstruct/spi/protobuf/ProtobufEnumExtendedAccessorNamingStrategy.java:105 | Decapitalizing twice gives what decapitalizing once gives |
| `ProtobufEnumNaming.IsGetterForEnumPlainIntValue` | spi-impl/src/main/java/io/github/dnalchemist/mapstruct/spi/protobuf/ProtobufEnumExtendedAccessorNamingStrategy.java:117-119 | The name starts with `get` and ends with `Value`; such a name has at least 8 characters, so `substring(3, length - 5)` is always in bounds |
| `ProtobufEnumNaming.IsOneOfDataCase` | spi-impl/src/main/java/io/github/dnalchemist/mapstruct/spi/protobuf/ProtobufEnumExtendedAccessorNamingStrategy.java:121-124 | The method's name starts with `get` and ends with `Case`; such a name has at least 7 characters |
| `ProtobufEnumNaming.GetPrefixPrecedesSuffix` | spi-impl/src/main/java/io/github/dnalchemist/mapstruct/spi/protobuf/ProtobufEnumExtendedAccessorNamingStrategy.java:117-124 | A name that starts with "get" and ends with "Value" or "Case" cannot have the two overlap, so it is at least as long as both together |
| `ProtobufEnumNaming.EnumValueStem` | spi-impl/src/main/java/io/github/dnalchemist/mapstruct/spi/protobuf/ProtobufEnumExtendedAccessorNamingStrategy.java:105 | The text cut out of a raw-int accessor name is the X with name == "get" + X + "Value" |
| `ProtobufEnumNaming.EnumValueStemOfAccessor` | spi-impl/src/main/java/io/github/dnalchemist/mapstruct/spi/protobuf/ProtobufEnumExtendedAccessorNamingStrategy.java:117-119 | Every "get" + X + "Value" is a raw-int accessor name and its stem is X; with `EnumValueStem`, the raw-int accessor names are exactly the names of that form |
| `ProtobufEnumNaming.OneOfDataCaseOfStem` | spi-impl/src/main/java/io/github/dnalchemist/mapstruct/spi/protobuf/ProtobufEnumExtendedAccessorNamingStrategy.java:121-124 | Every "get" + X + "Case" is a oneof discriminator, whatever it returns |
| `ProtobufEnumNaming.PlainIntValueIsNotOneOfCase` | spi-impl/src/main/java/io/github/dnalchemist/mapstruct/spi/protobuf/ProtobufEnumExtendedAccessorNamingStrategy.java:117-124 | No method name is both a raw-int accessor and a oneof discriminator |
| `ProtobufEnumNaming.AsTypeElement` | spi-impl/src/main/java/io/github/dnalchemist/mapstruct/spi/protobuf/ProtobufEnumExtendedAccessorNamingStrategy.java:70-78 | A declaration is returned exactly for a declared type whose element is a type declaration, and it is that element; null (None) for every other type |
| `ProtobufEnumNaming.ScanInterfaces` | spi-impl/src/main/java/io/github/dnalchemist/mapstruct/spi/protobuf/ProtobufEnumExtendedAccessorNamingStrategy.java:55-63 | The loop, which stops at the first marker, answers true exactly when ProtocolMessageEnum or Internal.EnumLite is among the directly implemented interfaces |
| `ProtobufEnumNaming.ProtobufEnumExtendedAccessorNamingStrategy.constructor` | spi-impl/src/main/java/io/github/dnalchemist/mapstruct/spi/protobuf/ProtobufEnumExtendedAccessorNamingStrategy.java:46 | A new strategy starts with an empty cache and nothing scanned, and wraps the given inherited rules |
| `ProtobufEnumNaming.ProtobufEnumExtendedAccessorNamingStrategy.IsProtobufEnum` | spi-impl/src/main/java/io/github/dnalchemist/mapstruct/spi/protobuf/ProtobufEnumExtendedAccessorNamingStrategy.java:48-68 | The answer is whether the type's declaration directly implements a marker interface. A type without a declaration gives false and changes nothing. A cache hit returns the cached value and scans nothing. A miss scans once and caches the answer, true or false. Existing entries never change, and the cache stays sound |
| `ProtobufEnumNaming.ProtobufEnumExtendedAccessorNamingStrategy.IsGetterMethod` | spi-impl/src/main/java/io/github/dnalchemist/mapstruct/spi/protobuf/ProtobufEnumExtendedAccessorNamingStrategy.java:81-91 | `get…Value` is a getter whatever it returns, and the cache is not consulted. Otherwise a method returning a Protobuf enum that is not `get…Case` is not a getter. Every other method, every `get…Case` included, gets the inherited answer. The cache changes only as `IsProtobufEnum` changes it |
| `ProtobufEnumNaming.ProtobufEnumExtendedAccessorNamingStrategy.GetPropertyName` | spi-impl/src/main/java/io/github/dnalchemist/mapstruct/spi/protobuf/ProtobufEnumExtendedAccessorNamingStrategy.java:101-108 | For a raw-int accessor, the property name is 8 characters shorter than the method name and is already in JavaBeans form. Every other method gets the inherited name unchanged |
| `ProtobufEnumNaming.RawAccessorPropertyName` | spi-impl/src/main/java/io/github/dnalchemist/mapstruct/spi/protobuf/ProtobufEnumExtendedAccessorNamingStrategy.java:101-107 | For every X and any return type, "get" + X + "Value" names the property decapitalize(X) |
| `ProtobufEnumNaming.BareValueAccessorHasEmptyName` | spi-impl/src/main/java/io/github/dnalchemist/mapstruct/spi/protobuf/ProtobufEnumExtendedAccessorNamingStrategy.java:104-105 | `getValue` counts as a raw-int accessor, and its property name is the empty string |
| `Scenarios.StatusField` | spi-impl/src/main/java/io/github/dnalchemist/mapstruct/spi/protobuf/ProtobufEnumExtendedAccessorNamingStrategy.java:81-107 | Take a field of enum type `Status`, which implements ProtocolMessageEnum. `getStatus()` is not a getter. `getStatusValue()` is a getter of property "status" |
| `Scenarios.PermissionCaseDiscriminator` | spi-impl/src/main/java/io/github/dnalchemist/mapstruct/spi/protobuf/ProtobufEnumExtendedAccessorNamingStrategy.java:87-90 | `getPermissionCase()` returns a lite enum, and it still gets the inherited answer |
| `Scenarios.RepeatedEnumQuery` | spi-impl/src/main/java/io/github/dnalchemist/mapstruct/spi/protobuf/ProtobufEnumExtendedAccessorNamingStrategy.java:53-67 | Two questions about one type give the same answer. Afterwards the cache has one entry for a declared type and none for any other type |
| `Scenarios.StatusValueName` | spi-impl/src/main/java/io/github/dnalchemist/mapstruct/spi/protobuf/ProtobufEnumExtendedAccessorNamingStrategy.java:101-107 | `getStatusValue()` names the property "status" |
| `Scenarios.UserEnumValueName` | spi-impl/src/main/java/io/github/dnalchemist/mapstruct/spi/protobuf/ProtobufEnumExtendedAccessorNamingStrategy.java:93-106 | `getUserEnumValue()` names the property "userEnum", the example in the method's documentation |

## Left out

- `usage/src/main/java/io/github/dnalchemist/mapstruct/example/UserMapper.java` is not part of this model. It is an annotated MapStruct interface whose implementation is generated at compile time, and its default methods have no logic of their own.
- The javax.lang.model reflection layer is plain data. Each directly implemented interface is the text its `toString()` gives. A declaration is equal to another exactly when its name and interface list are equal; the compiler's own element identity is not modelled.
- `ProtobufAccessorNamingStrategy` is not part of this model. Its `isGetterMethod` and `getPropertyName` are the function values that the constructor takes. Nothing is assumed about them.
- Introspector.Decapitalize: `Character.isUpperCase` and `Character.toLowerCase` are modelled for the ASCII letters only. Other Unicode letters are treated as neither upper nor lower case. `IntrospectorUtils` itself is not part of this model.
- Java `null` is not modelled. A null type mirror is answered like `OtherType`, since `instanceof` fails on it. Null method names would throw, and the host never passes them.
- Thread safety of the unsynchronised `HashMap` is not modelled. The host calls the strategy from one thread.
