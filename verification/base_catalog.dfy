/** The names of the base catalog of lib/packingLogic.ts:3-58 are pairwise
    distinct. The catalog is a literal, so the proof walks it section by section:
    each section is checked on its own, then each pair of sections, a few
    entries per lemma, and the results are joined. A single quantifier over
    all index pairs of the 45 entries, or one lemma per pair of whole sections,
    asks the solver to compare hundreds of string literals at once and is far
    more expensive than these small steps together. */
module BaseCatalog {
  import opened Types
  import opened NameMerge
  import opened PackingLogic

  /** No two base items share a name, so merging never folds two of them. */
  lemma BaseNamesDistinct()
    ensures DistinctNames(BaseItems)
  {
    ClothingDistinct();
    ToiletriesDistinct();
    ElectronicsDistinct();
    DocumentsDistinct();
    AccessoriesDistinct();
    ClothingVsToiletries();
    ClothingVsElectronics();
    ClothingVsDocuments();
    ClothingVsAccessories();
    ToiletriesVsElectronics();
    ToiletriesVsDocuments();
    ToiletriesVsAccessories();
    ElectronicsVsDocuments();
    ElectronicsVsAccessories();
    DocumentsVsAccessories();
    var s1 := BaseClothing + BaseToiletries;
    DistinctConcat(BaseClothing, BaseToiletries);
    var s2 := s1 + BaseElectronics;
    DisjointAppend(BaseClothing, BaseToiletries, BaseElectronics);
    DistinctConcat(s1, BaseElectronics);
    var s3 := s2 + BaseDocuments;
    DisjointAppend(BaseClothing, BaseToiletries, BaseDocuments);
    DisjointAppend(s1, BaseElectronics, BaseDocuments);
    DistinctConcat(s2, BaseDocuments);
    DisjointAppend(BaseClothing, BaseToiletries, BaseAccessories);
    DisjointAppend(s1, BaseElectronics, BaseAccessories);
    DisjointAppend(s2, BaseDocuments, BaseAccessories);
    DistinctConcat(s3, BaseAccessories);
  }

  lemma ClothingVsToiletriesFrom11()
    ensures DisjointFrom(BaseClothing, BaseToiletries, 11)
  {
    assert |BaseClothing| == 13;
    assert DisjointFrom(BaseClothing, BaseToiletries, 12);
  }

  lemma ClothingVsToiletriesFrom9()
    ensures DisjointFrom(BaseClothing, BaseToiletries, 9)
  {
    ClothingVsToiletriesFrom11();
    assert DisjointFrom(BaseClothing, BaseToiletries, 10);
  }

  lemma ClothingVsToiletriesFrom7()
    ensures DisjointFrom(BaseClothing, BaseToiletries, 7)
  {
    ClothingVsToiletriesFrom9();
    assert DisjointFrom(BaseClothing, BaseToiletries, 8);
  }

  lemma ClothingVsToiletriesFrom5()
    ensures DisjointFrom(BaseClothing, BaseToiletries, 5)
  {
    ClothingVsToiletriesFrom7();
    assert DisjointFrom(BaseClothing, BaseToiletries, 6);
  }

  lemma ClothingVsToiletriesFrom3()
    ensures DisjointFrom(BaseClothing, BaseToiletries, 3)
  {
    ClothingVsToiletriesFrom5();
    assert DisjointFrom(BaseClothing, BaseToiletries, 4);
  }

  lemma ClothingVsToiletriesFrom1()
    ensures DisjointFrom(BaseClothing, BaseToiletries, 1)
  {
    ClothingVsToiletriesFrom3();
    assert DisjointFrom(BaseClothing, BaseToiletries, 2);
  }

  lemma ClothingVsToiletriesFrom0()
    ensures DisjointFrom(BaseClothing, BaseToiletries, 0)
  {
    ClothingVsToiletriesFrom1();
  }

  lemma ClothingVsToiletries()
    ensures NamesDisjoint(BaseClothing, BaseToiletries)
  {
    ClothingVsToiletriesFrom0();
    DisjointFromMeans(BaseClothing, BaseToiletries, 0);
  }

  lemma ClothingVsElectronicsFrom11()
    ensures DisjointFrom(BaseClothing, BaseElectronics, 11)
  {
    assert |BaseClothing| == 13;
    assert DisjointFrom(BaseClothing, BaseElectronics, 12);
  }

  lemma ClothingVsElectronicsFrom9()
    ensures DisjointFrom(BaseClothing, BaseElectronics, 9)
  {
    ClothingVsElectronicsFrom11();
    assert DisjointFrom(BaseClothing, BaseElectronics, 10);
  }

  lemma ClothingVsElectronicsFrom7()
    ensures DisjointFrom(BaseClothing, BaseElectronics, 7)
  {
    ClothingVsElectronicsFrom9();
    assert DisjointFrom(BaseClothing, BaseElectronics, 8);
  }

  lemma ClothingVsElectronicsFrom5()
    ensures DisjointFrom(BaseClothing, BaseElectronics, 5)
  {
    ClothingVsElectronicsFrom7();
    assert DisjointFrom(BaseClothing, BaseElectronics, 6);
  }

  lemma ClothingVsElectronicsFrom3()
    ensures DisjointFrom(BaseClothing, BaseElectronics, 3)
  {
    ClothingVsElectronicsFrom5();
    assert DisjointFrom(BaseClothing, BaseElectronics, 4);
  }

  lemma ClothingVsElectronicsFrom1()
    ensures DisjointFrom(BaseClothing, BaseElectronics, 1)
  {
    ClothingVsElectronicsFrom3();
    assert DisjointFrom(BaseClothing, BaseElectronics, 2);
  }

  lemma ClothingVsElectronicsFrom0()
    ensures DisjointFrom(BaseClothing, BaseElectronics, 0)
  {
    ClothingVsElectronicsFrom1();
  }

  lemma ClothingVsElectronics()
    ensures NamesDisjoint(BaseClothing, BaseElectronics)
  {
    ClothingVsElectronicsFrom0();
    DisjointFromMeans(BaseClothing, BaseElectronics, 0);
  }

  lemma ClothingVsDocumentsFrom11()
    ensures DisjointFrom(BaseClothing, BaseDocuments, 11)
  {
    assert |BaseClothing| == 13;
    assert DisjointFrom(BaseClothing, BaseDocuments, 12);
  }

  lemma ClothingVsDocumentsFrom9()
    ensures DisjointFrom(BaseClothing, BaseDocuments, 9)
  {
    ClothingVsDocumentsFrom11();
    assert DisjointFrom(BaseClothing, BaseDocuments, 10);
  }

  lemma ClothingVsDocumentsFrom7()
    ensures DisjointFrom(BaseClothing, BaseDocuments, 7)
  {
    ClothingVsDocumentsFrom9();
    assert DisjointFrom(BaseClothing, BaseDocuments, 8);
  }

  lemma ClothingVsDocumentsFrom5()
    ensures DisjointFrom(BaseClothing, BaseDocuments, 5)
  {
    ClothingVsDocumentsFrom7();
    assert DisjointFrom(BaseClothing, BaseDocuments, 6);
  }

  lemma ClothingVsDocumentsFrom3()
    ensures DisjointFrom(BaseClothing, BaseDocuments, 3)
  {
    ClothingVsDocumentsFrom5();
    assert DisjointFrom(BaseClothing, BaseDocuments, 4);
  }

  lemma ClothingVsDocumentsFrom1()
    ensures DisjointFrom(BaseClothing, BaseDocuments, 1)
  {
    ClothingVsDocumentsFrom3();
    assert DisjointFrom(BaseClothing, BaseDocuments, 2);
  }

  lemma ClothingVsDocumentsFrom0()
    ensures DisjointFrom(BaseClothing, BaseDocuments, 0)
  {
    ClothingVsDocumentsFrom1();
  }

  lemma ClothingVsDocuments()
    ensures NamesDisjoint(BaseClothing, BaseDocuments)
  {
    ClothingVsDocumentsFrom0();
    DisjointFromMeans(BaseClothing, BaseDocuments, 0);
  }

  lemma ClothingVsAccessoriesFrom11()
    ensures DisjointFrom(BaseClothing, BaseAccessories, 11)
  {
    assert |BaseClothing| == 13;
    assert DisjointFrom(BaseClothing, BaseAccessories, 12);
  }

  lemma ClothingVsAccessoriesFrom9()
    ensures DisjointFrom(BaseClothing, BaseAccessories, 9)
  {
    ClothingVsAccessoriesFrom11();
    assert DisjointFrom(BaseClothing, BaseAccessories, 10);
  }

  lemma ClothingVsAccessoriesFrom7()
    ensures DisjointFrom(BaseClothing, BaseAccessories, 7)
  {
    ClothingVsAccessoriesFrom9();
    assert DisjointFrom(BaseClothing, BaseAccessories, 8);
  }

  lemma ClothingVsAccessoriesFrom5()
    ensures DisjointFrom(BaseClothing, BaseAccessories, 5)
  {
    ClothingVsAccessoriesFrom7();
    assert DisjointFrom(BaseClothing, BaseAccessories, 6);
  }

  lemma ClothingVsAccessoriesFrom3()
    ensures DisjointFrom(BaseClothing, BaseAccessories, 3)
  {
    ClothingVsAccessoriesFrom5();
    assert DisjointFrom(BaseClothing, BaseAccessories, 4);
  }

  lemma ClothingVsAccessoriesFrom1()
    ensures DisjointFrom(BaseClothing, BaseAccessories, 1)
  {
    ClothingVsAccessoriesFrom3();
    assert DisjointFrom(BaseClothing, BaseAccessories, 2);
  }

  lemma ClothingVsAccessoriesFrom0()
    ensures DisjointFrom(BaseClothing, BaseAccessories, 0)
  {
    ClothingVsAccessoriesFrom1();
  }

  lemma ClothingVsAccessories()
    ensures NamesDisjoint(BaseClothing, BaseAccessories)
  {
    ClothingVsAccessoriesFrom0();
    DisjointFromMeans(BaseClothing, BaseAccessories, 0);
  }

  lemma ToiletriesVsElectronicsFrom9()
    ensures DisjointFrom(BaseToiletries, BaseElectronics, 9)
  {
    assert |BaseToiletries| == 11;
    assert DisjointFrom(BaseToiletries, BaseElectronics, 10);
  }

  lemma ToiletriesVsElectronicsFrom7()
    ensures DisjointFrom(BaseToiletries, BaseElectronics, 7)
  {
    ToiletriesVsElectronicsFrom9();
    assert DisjointFrom(BaseToiletries, BaseElectronics, 8);
  }

  lemma ToiletriesVsElectronicsFrom5()
    ensures DisjointFrom(BaseToiletries, BaseElectronics, 5)
  {
    ToiletriesVsElectronicsFrom7();
    assert DisjointFrom(BaseToiletries, BaseElectronics, 6);
  }

  lemma ToiletriesVsElectronicsFrom3()
    ensures DisjointFrom(BaseToiletries, BaseElectronics, 3)
  {
    ToiletriesVsElectronicsFrom5();
    assert DisjointFrom(BaseToiletries, BaseElectronics, 4);
  }

  lemma ToiletriesVsElectronicsFrom1()
    ensures DisjointFrom(BaseToiletries, BaseElectronics, 1)
  {
    ToiletriesVsElectronicsFrom3();
    assert DisjointFrom(BaseToiletries, BaseElectronics, 2);
  }

  lemma ToiletriesVsElectronicsFrom0()
    ensures DisjointFrom(BaseToiletries, BaseElectronics, 0)
  {
    ToiletriesVsElectronicsFrom1();
  }

  lemma ToiletriesVsElectronics()
    ensures NamesDisjoint(BaseToiletries, BaseElectronics)
  {
    ToiletriesVsElectronicsFrom0();
    DisjointFromMeans(BaseToiletries, BaseElectronics, 0);
  }

  lemma ToiletriesVsDocumentsFrom9()
    ensures DisjointFrom(BaseToiletries, BaseDocuments, 9)
  {
    assert |BaseToiletries| == 11;
    assert DisjointFrom(BaseToiletries, BaseDocuments, 10);
  }

  lemma ToiletriesVsDocumentsFrom7()
    ensures DisjointFrom(BaseToiletries, BaseDocuments, 7)
  {
    ToiletriesVsDocumentsFrom9();
    assert DisjointFrom(BaseToiletries, BaseDocuments, 8);
  }

  lemma ToiletriesVsDocumentsFrom5()
    ensures DisjointFrom(BaseToiletries, BaseDocuments, 5)
  {
    ToiletriesVsDocumentsFrom7();
    assert DisjointFrom(BaseToiletries, BaseDocuments, 6);
  }

  lemma ToiletriesVsDocumentsFrom3()
    ensures DisjointFrom(BaseToiletries, BaseDocuments, 3)
  {
    ToiletriesVsDocumentsFrom5();
    assert DisjointFrom(BaseToiletries, BaseDocuments, 4);
  }

  lemma ToiletriesVsDocumentsFrom1()
    ensures DisjointFrom(BaseToiletries, BaseDocuments, 1)
  {
    ToiletriesVsDocumentsFrom3();
    assert DisjointFrom(BaseToiletries, BaseDocuments, 2);
  }

  lemma ToiletriesVsDocumentsFrom0()
    ensures DisjointFrom(BaseToiletries, BaseDocuments, 0)
  {
    ToiletriesVsDocumentsFrom1();
  }

  lemma ToiletriesVsDocuments()
    ensures NamesDisjoint(BaseToiletries, BaseDocuments)
  {
    ToiletriesVsDocumentsFrom0();
    DisjointFromMeans(BaseToiletries, BaseDocuments, 0);
  }

  lemma ToiletriesVsAccessoriesFrom9()
    ensures DisjointFrom(BaseToiletries, BaseAccessories, 9)
  {
    assert |BaseToiletries| == 11;
    assert DisjointFrom(BaseToiletries, BaseAccessories, 10);
  }

  lemma ToiletriesVsAccessoriesFrom7()
    ensures DisjointFrom(BaseToiletries, BaseAccessories, 7)
  {
    ToiletriesVsAccessoriesFrom9();
    assert DisjointFrom(BaseToiletries, BaseAccessories, 8);
  }

  lemma ToiletriesVsAccessoriesFrom5()
    ensures DisjointFrom(BaseToiletries, BaseAccessories, 5)
  {
    ToiletriesVsAccessoriesFrom7();
    assert DisjointFrom(BaseToiletries, BaseAccessories, 6);
  }

  lemma ToiletriesVsAccessoriesFrom3()
    ensures DisjointFrom(BaseToiletries, BaseAccessories, 3)
  {
    ToiletriesVsAccessoriesFrom5();
    assert DisjointFrom(BaseToiletries, BaseAccessories, 4);
  }

  lemma ToiletriesVsAccessoriesFrom1()
    ensures DisjointFrom(BaseToiletries, BaseAccessories, 1)
  {
    ToiletriesVsAccessoriesFrom3();
    assert DisjointFrom(BaseToiletries, BaseAccessories, 2);
  }

  lemma ToiletriesVsAccessoriesFrom0()
    ensures DisjointFrom(BaseToiletries, BaseAccessories, 0)
  {
    ToiletriesVsAccessoriesFrom1();
  }

  lemma ToiletriesVsAccessories()
    ensures NamesDisjoint(BaseToiletries, BaseAccessories)
  {
    ToiletriesVsAccessoriesFrom0();
    DisjointFromMeans(BaseToiletries, BaseAccessories, 0);
  }

  lemma ElectronicsVsDocumentsFrom3()
    ensures DisjointFrom(BaseElectronics, BaseDocuments, 3)
  {
    assert |BaseElectronics| == 5;
    assert DisjointFrom(BaseElectronics, BaseDocuments, 4);
  }

  lemma ElectronicsVsDocumentsFrom1()
    ensures DisjointFrom(BaseElectronics, BaseDocuments, 1)
  {
    ElectronicsVsDocumentsFrom3();
    assert DisjointFrom(BaseElectronics, BaseDocuments, 2);
  }

  lemma ElectronicsVsDocumentsFrom0()
    ensures DisjointFrom(BaseElectronics, BaseDocuments, 0)
  {
    ElectronicsVsDocumentsFrom1();
  }

  lemma ElectronicsVsDocuments()
    ensures NamesDisjoint(BaseElectronics, BaseDocuments)
  {
    ElectronicsVsDocumentsFrom0();
    DisjointFromMeans(BaseElectronics, BaseDocuments, 0);
  }

  lemma ElectronicsVsAccessoriesFrom3()
    ensures DisjointFrom(BaseElectronics, BaseAccessories, 3)
  {
    assert |BaseElectronics| == 5;
    assert DisjointFrom(BaseElectronics, BaseAccessories, 4);
  }

  lemma ElectronicsVsAccessoriesFrom1()
    ensures DisjointFrom(BaseElectronics, BaseAccessories, 1)
  {
    ElectronicsVsAccessoriesFrom3();
    assert DisjointFrom(BaseElectronics, BaseAccessories, 2);
  }

  lemma ElectronicsVsAccessoriesFrom0()
    ensures DisjointFrom(BaseElectronics, BaseAccessories, 0)
  {
    ElectronicsVsAccessoriesFrom1();
  }

  lemma ElectronicsVsAccessories()
    ensures NamesDisjoint(BaseElectronics, BaseAccessories)
  {
    ElectronicsVsAccessoriesFrom0();
    DisjointFromMeans(BaseElectronics, BaseAccessories, 0);
  }

  lemma DocumentsVsAccessoriesFrom4()
    ensures DisjointFrom(BaseDocuments, BaseAccessories, 4)
  {
    assert |BaseDocuments| == 6;
    assert DisjointFrom(BaseDocuments, BaseAccessories, 5);
  }

  lemma DocumentsVsAccessoriesFrom2()
    ensures DisjointFrom(BaseDocuments, BaseAccessories, 2)
  {
    DocumentsVsAccessoriesFrom4();
    assert DisjointFrom(BaseDocuments, BaseAccessories, 3);
  }

  lemma DocumentsVsAccessoriesFrom0()
    ensures DisjointFrom(BaseDocuments, BaseAccessories, 0)
  {
    DocumentsVsAccessoriesFrom2();
    assert DisjointFrom(BaseDocuments, BaseAccessories, 1);
  }

  lemma DocumentsVsAccessories()
    ensures NamesDisjoint(BaseDocuments, BaseAccessories)
  {
    DocumentsVsAccessoriesFrom0();
    DisjointFromMeans(BaseDocuments, BaseAccessories, 0);
  }

  lemma ClothingDistinctFrom11()
    ensures DistinctFrom(BaseClothing, 11)
  {
    assert |BaseClothing| == 13;
    assert DistinctFrom(BaseClothing, 12);
  }

  lemma ClothingDistinctFrom9()
    ensures DistinctFrom(BaseClothing, 9)
  {
    ClothingDistinctFrom11();
    assert DistinctFrom(BaseClothing, 10);
  }

  lemma ClothingDistinctFrom7()
    ensures DistinctFrom(BaseClothing, 7)
  {
    ClothingDistinctFrom9();
    assert DistinctFrom(BaseClothing, 8);
  }

  lemma ClothingDistinctFrom5()
    ensures DistinctFrom(BaseClothing, 5)
  {
    ClothingDistinctFrom7();
    assert DistinctFrom(BaseClothing, 6);
  }

  lemma ClothingDistinctFrom3()
    ensures DistinctFrom(BaseClothing, 3)
  {
    ClothingDistinctFrom5();
    assert DistinctFrom(BaseClothing, 4);
  }

  lemma ClothingDistinctFrom1()
    ensures DistinctFrom(BaseClothing, 1)
  {
    ClothingDistinctFrom3();
    assert DistinctFrom(BaseClothing, 2);
  }

  lemma ClothingDistinctFrom0()
    ensures DistinctFrom(BaseClothing, 0)
  {
    ClothingDistinctFrom1();
  }

  lemma ClothingDistinct()
    ensures DistinctNames(BaseClothing)
  {
    ClothingDistinctFrom0();
    DistinctFromMeans(BaseClothing, 0);
  }

  lemma ToiletriesDistinctFrom9()
    ensures DistinctFrom(BaseToiletries, 9)
  {
    assert |BaseToiletries| == 11;
    assert DistinctFrom(BaseToiletries, 10);
  }

  lemma ToiletriesDistinctFrom7()
    ensures DistinctFrom(BaseToiletries, 7)
  {
    ToiletriesDistinctFrom9();
    assert DistinctFrom(BaseToiletries, 8);
  }

  lemma ToiletriesDistinctFrom5()
    ensures DistinctFrom(BaseToiletries, 5)
  {
    ToiletriesDistinctFrom7();
    assert DistinctFrom(BaseToiletries, 6);
  }

  lemma ToiletriesDistinctFrom3()
    ensures DistinctFrom(BaseToiletries, 3)
  {
    ToiletriesDistinctFrom5();
    assert DistinctFrom(BaseToiletries, 4);
  }

  lemma ToiletriesDistinctFrom1()
    ensures DistinctFrom(BaseToiletries, 1)
  {
    ToiletriesDistinctFrom3();
    assert DistinctFrom(BaseToiletries, 2);
  }

  lemma ToiletriesDistinctFrom0()
    ensures DistinctFrom(BaseToiletries, 0)
  {
    ToiletriesDistinctFrom1();
  }

  lemma ToiletriesDistinct()
    ensures DistinctNames(BaseToiletries)
  {
    ToiletriesDistinctFrom0();
    DistinctFromMeans(BaseToiletries, 0);
  }

  lemma ElectronicsDistinctFrom3()
    ensures DistinctFrom(BaseElectronics, 3)
  {
    assert |BaseElectronics| == 5;
    assert DistinctFrom(BaseElectronics, 4);
  }

  lemma ElectronicsDistinctFrom1()
    ensures DistinctFrom(BaseElectronics, 1)
  {
    ElectronicsDistinctFrom3();
    assert DistinctFrom(BaseElectronics, 2);
  }

  lemma ElectronicsDistinctFrom0()
    ensures DistinctFrom(BaseElectronics, 0)
  {
    ElectronicsDistinctFrom1();
  }

  lemma ElectronicsDistinct()
    ensures DistinctNames(BaseElectronics)
  {
    ElectronicsDistinctFrom0();
    DistinctFromMeans(BaseElectronics, 0);
  }

  lemma DocumentsDistinctFrom4()
    ensures DistinctFrom(BaseDocuments, 4)
  {
    assert |BaseDocuments| == 6;
    assert DistinctFrom(BaseDocuments, 5);
  }

  lemma DocumentsDistinctFrom2()
    ensures DistinctFrom(BaseDocuments, 2)
  {
    DocumentsDistinctFrom4();
    assert DistinctFrom(BaseDocuments, 3);
  }

  lemma DocumentsDistinctFrom0()
    ensures DistinctFrom(BaseDocuments, 0)
  {
    DocumentsDistinctFrom2();
    assert DistinctFrom(BaseDocuments, 1);
  }

  lemma DocumentsDistinct()
    ensures DistinctNames(BaseDocuments)
  {
    DocumentsDistinctFrom0();
    DistinctFromMeans(BaseDocuments, 0);
  }

  lemma AccessoriesDistinctFrom8()
    ensures DistinctFrom(BaseAccessories, 8)
  {
    assert |BaseAccessories| == 10;
    assert DistinctFrom(BaseAccessories, 9);
  }

  lemma AccessoriesDistinctFrom6()
    ensures DistinctFrom(BaseAccessories, 6)
  {
    AccessoriesDistinctFrom8();
    assert DistinctFrom(BaseAccessories, 7);
  }

  lemma AccessoriesDistinctFrom4()
    ensures DistinctFrom(BaseAccessories, 4)
  {
    AccessoriesDistinctFrom6();
    assert DistinctFrom(BaseAccessories, 5);
  }

  lemma AccessoriesDistinctFrom2()
    ensures DistinctFrom(BaseAccessories, 2)
  {
    AccessoriesDistinctFrom4();
    assert DistinctFrom(BaseAccessories, 3);
  }

  lemma AccessoriesDistinctFrom0()
    ensures DistinctFrom(BaseAccessories, 0)
  {
    AccessoriesDistinctFrom2();
    assert DistinctFrom(BaseAccessories, 1);
  }

  lemma AccessoriesDistinct()
    ensures DistinctNames(BaseAccessories)
  {
    AccessoriesDistinctFrom0();
    DistinctFromMeans(BaseAccessories, 0);
  }
}
